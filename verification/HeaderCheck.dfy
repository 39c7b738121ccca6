/** The receive buffer of a virtual channel: it looks up the trigger of a frame's opcode and stamps or drops
    the frame. */
module HeaderCheck {
  import opened AxiStream
  import opened RxFrames
  import opened TriggerTable

  /** One word of the outgoing stream; its destination field is set further downstream. */
  datatype OutWord = OutWord(data: Dw, sof: bool, last: bool, eofe: bool)

  const LUT_WAIT := 7

  function Pass(w: RxWord): OutWord {
    OutWord(w.data, w.sof, w.last, w.eofe)
  }

  /** The opcode is bits 23..16 of the second header word. */
  function Opcode(d: Dw): (a: nat)
    ensures a < OPCODES
  {
    d.b2 as nat
  }

  /** The first header word with the lane in bits 7..5 and the virtual channel in bits 1..0. */
  function Relabel(d: Dw, lane: nat, vc: nat): Dw {
    d.(b0 := ((lane % 8) * 32 + ((d.b0 as int) / 4 % 8) * 4 + vc % 4) as byte)
  }

  function AsDw(n: nat): Dw {
    Dw((n % 256) as byte, (n / 0x100 % 256) as byte, (n / 0x1_0000 % 256) as byte, (n / 0x100_0000 % 256) as byte)
  }

  /** Only the lane and virtual channel bits change. */
  lemma RelabelBits(d: Dw, lane: nat, vc: nat)
    requires lane < 8 && vc < 4
    ensures var r := Relabel(d, lane, vc);
            && r.b1 == d.b1 && r.b2 == d.b2 && r.b3 == d.b3
            && r.b0 as int / 32 == lane && r.b0 as int % 4 == vc && r.b0 as int / 4 % 8 == d.b0 as int / 4 % 8
  {
    ByteParts(lane, d.b0 as int / 4 % 8, vc);
  }

  lemma ByteParts(lane: nat, kept: nat, vc: nat)
    requires lane < 8 && kept < 8 && vc < 4
    ensures var b := lane * 32 + kept * 4 + vc; b < 256 && b / 32 == lane && b / 4 % 8 == kept && b % 4 == vc
  {
  }

  /** The count goes out as a little-endian 32-bit word. */
  lemma CountBytes(n: nat)
    requires n < COUNT_SPACE
    ensures var d := AsDw(n);
            d.b0 as int + d.b1 as int * 0x100 + d.b2 as int * 0x1_0000 + d.b3 as int * 0x100_0000 == n
  {
    var a, b, c := n / 0x100, n / 0x1_0000, n / 0x100_0000;
    assert n == a * 0x100 + n % 0x100 && a == b * 0x100 + a % 0x100 && b == c * 0x100 + b % 0x100;
    assert c == c % 0x100;
  }

  /** A point of a run: an edge, and the number of words accepted before it. */
  datatype Moment = Moment(edge: nat, words: nat)

  /** What became of one frame: when the buffer turned to it and whether its header was checked, and, once it has been
      looked up, the table it was looked up in, when that was read, and the entry the frame was judged by. */
  datatype Check = Check(on: bool, start: Moment, entry: Option<Entry>, table: seq<Entry>, read: Moment)

  function NewCheck(on: bool, start: Moment): Check {
    Check(on, start, None, [], Moment(0, 0))
  }

  /** Which lane and virtual channel the buffer serves. */
  datatype Port = Port(lane: nat, vc: nat)

  /** Word i of an accepted frame. A frame that ends within words 2 to 4 is marked as damaged. */
  function WordOut(w: RxWord, i: nat, e: Entry, p: Port): OutWord {
    if i == 0 then OutWord(Relabel(w.data, p.lane, p.vc), true, false, false)
    else if i == 1 then OutWord(w.data, false, false, false)
    else if i == 2 then OutWord(AsDw(e.acceptCnt), false, w.last, w.last)
    else if i == 3 then OutWord(e.offset, false, w.last, w.last)
    else if i == 4 then OutWord(e.seconds, false, w.last, w.last)
    else Pass(w)
  }

  function Rewritten(f: Frame, e: Entry, p: Port): (ws: seq<OutWord>)
    ensures |ws| == |f|
  {
    if f == [] then []
    else Rewritten(f[..|f| - 1], e, p) + [WordOut(f[|f| - 1], |f| - 1, e, p)]
  }

  function Passed(f: Frame): (ws: seq<OutWord>)
    ensures |ws| == |f|
  {
    if f == [] then []
    else
      var w := f[|f| - 1];
      Passed(f[..|f| - 1]) + [OutWord(w.data, w.sof, w.last, w.eofe)]
  }

  /** The share of a frame in the output: unchanged, stamped, or nothing. */
  function Emit(f: Frame, c: Check, p: Port): seq<OutWord> {
    if !c.on then Passed(f)
    else if c.entry.Some? && c.entry.value.accept then Rewritten(f, c.entry.value, p)
    else []
  }

  function Outs(fs: seq<Frame>, cs: seq<Check>, p: Port): seq<OutWord>
    requires |fs| == |cs|
  {
    if fs == [] then []
    else
      var m := |fs| - 1;
      Outs(fs[..m], cs[..m], p) + Emit(fs[m], cs[m], p)
  }

  /** Stamping keeps the length and every word from the sixth on. */
  lemma {:induction false} RewrittenAt(f: Frame, e: Entry, p: Port, i: nat)
    requires i < |f|
    ensures Rewritten(f, e, p)[i] == WordOut(f[i], i, e, p)
  {
    if i == |f| - 1 {
    } else {
      RewrittenAt(f[..|f| - 1], e, p, i);
    }
  }

  lemma EmitMore(f: Frame, w: RxWord, c: Check, p: Port)
    ensures Emit(f + [w], c, p) == if !c.on then Emit(f, c, p) + [Pass(w)]
                                   else if c.entry.Some? && c.entry.value.accept then
                                     Emit(f, c, p) + [WordOut(w, |f|, c.entry.value, p)]
                                   else []
  {
    assert (f + [w])[..|f|] == f;
  }

  // ---------------------------------------------------------------------------------------
  // The output against the frames
  // ---------------------------------------------------------------------------------------

  ghost function Cur(fs: seq<Frame>): Frame {
    if IsOpen(fs) then fs[|fs| - 1] else []
  }

  /** Complete frames have given their share; the open one has given the words part. */
  ghost predicate OutInv(fs: seq<Frame>, cs: seq<Check>, out: seq<OutWord>, part: seq<OutWord>, p: Port) {
    && |fs| == |cs|
    && if IsOpen(fs) then
         var m := |fs| - 1;
         out == Outs(fs[..m], cs[..m], p) + part
       else part == [] && out == Outs(fs, cs, p)
  }

  lemma OutStart(fs: seq<Frame>, cs: seq<Check>, out: seq<OutWord>, w: RxWord, c: Check, emitted: seq<OutWord>, p: Port)
    requires OutInv(fs, cs, out, [], p) && !IsOpen(fs) && w.sof
    requires w.last ==> emitted == Emit([w], c, p)
    ensures OutInv(Push(fs, w), cs + [c], out + emitted, if w.last then [] else emitted, p)
    ensures Cur(Push(fs, w)) == if w.last then [] else [w]
  {
    hide Emit;
    var gs, ds := fs + [[w]], cs + [c];
    assert gs[..|fs|] == fs && ds[..|fs|] == cs;
    assert Push(fs, w) == gs;
    assert gs[|gs| - 1] == [w];
  }

  lemma OutMore(fs: seq<Frame>, cs: seq<Check>, out: seq<OutWord>, part: seq<OutWord>, w: RxWord, emitted: seq<OutWord>,
                part': seq<OutWord>, p: Port)
    requires OutInv(fs, cs, out, part, p) && IsOpen(fs)
    requires part + emitted == if w.last then Emit(Cur(fs) + [w], cs[|fs| - 1], p) else part'
    ensures OutInv(Push(fs, w), cs, out + emitted, if w.last then [] else part', p)
    ensures Cur(Push(fs, w)) == if w.last then [] else Cur(fs) + [w]
  {
    hide Emit;
    var m := |fs| - 1;
    var gs := Push(fs, w);
    assert gs[..m] == fs[..m] && gs[m] == fs[m] + [w];
    var before := Outs(fs[..m], cs[..m], p);
    assert (before + part) + emitted == before + (part + emitted);
    assert gs[m][|gs[m]| - 1] == w;
  }

  lemma OutHere(fs: seq<Frame>, cs: seq<Check>, out: seq<OutWord>, part: seq<OutWord>, c: Check, emitted: seq<OutWord>,
                p: Port)
    requires OutInv(fs, cs, out, part, p) && IsOpen(fs)
    ensures OutInv(fs, cs[|fs| - 1 := c], out + emitted, part + emitted, p)
  {
    hide Emit;
    var m := |fs| - 1;
    assert cs[m := c][..m] == cs[..m];
    var before := Outs(fs[..m], cs[..m], p);
    assert (before + part) + emitted == before + (part + emitted);
  }

  // ---------------------------------------------------------------------------------------
  // The checks against the frames
  // ---------------------------------------------------------------------------------------

  /** The frame was judged by the entry of its own opcode. */
  predicate Sampled(f: Frame, c: Check) {
    && |f| >= 2 && |c.table| == OPCODES
    && c.entry == Some(c.table[Opcode(f[1].data)])
  }

  predicate CheckOk(f: Frame, c: Check) {
    && (c.entry.Some? ==> c.on && Sampled(f, c))
    && (c.on && |f| >= 3 ==> c.entry.Some?)
  }

  ghost predicate AllChecked(fs: seq<Frame>, cs: seq<Check>) {
    |fs| == |cs| && forall j :: 0 <= j < |fs| ==> CheckOk(fs[j], cs[j])
  }

  lemma CheckedStart(fs: seq<Frame>, cs: seq<Check>, w: RxWord, on: bool, start: Moment)
    requires AllChecked(fs, cs) && !IsOpen(fs) && w.sof
    ensures AllChecked(Push(fs, w), cs + [NewCheck(on, start)])
  {
  }

  lemma CheckedMore(fs: seq<Frame>, cs: seq<Check>, w: RxWord)
    requires AllChecked(fs, cs) && IsOpen(fs)
    requires cs[|fs| - 1].on && |Cur(fs)| >= 2 ==> cs[|fs| - 1].entry.Some?
    ensures AllChecked(Push(fs, w), cs)
  {
    var m := |fs| - 1;
    var gs := Push(fs, w);
    assert gs[m] == fs[m] + [w] && (|fs[m]| >= 2 ==> gs[m][1] == fs[m][1]);
  }

  lemma CheckedHere(fs: seq<Frame>, cs: seq<Check>, c: Check)
    requires AllChecked(fs, cs) && IsOpen(fs) && CheckOk(Cur(fs), c)
    ensures AllChecked(fs, cs[|fs| - 1 := c])
  {
  }

  // ---------------------------------------------------------------------------------------
  // The state machine
  // ---------------------------------------------------------------------------------------

  datatype StateType =
    | IdleS | RdHdr0S | RdHdr1S | LutWaitS | CheckAcceptS | WrHdr0S | WrHdr1S
    | RdWrHdr2S | RdWrHdr3S | RdWrHdr4S | FwdPayloadS

  /** doutb is the output register of the table's memory, dly1 and dly0 are two further stages. */
  datatype RegType = RegType(lutDropCnt: nat, lutWaitCnt: nat, hdr0: Dw, hdr1: Dw, raddr: nat, lutOut: Entry,
                             doutb: Entry, dly1: Entry, dly0: Entry, tx: Option<OutWord>, state: StateType)

  const BUFFER_INIT := RegType.RegType(0, 0, ZERO_DW, ZERO_DW, 0, NO_ENTRY, NO_ENTRY, NO_ENTRY, NO_ENTRY, None, IdleS)

  /** The words of the open frame already written. */
  function Part(state: StateType, f: Frame, c: Check, p: Port): seq<OutWord> {
    match state
    case WrHdr1S => if f != [] then Emit(f[..1], c, p) else []
    case RdWrHdr2S => Emit(f, c, p)
    case RdWrHdr3S => Emit(f, c, p)
    case RdWrHdr4S => Emit(f, c, p)
    case FwdPayloadS => Emit(f, c, p)
    case _ => []
  }

  predicate Judged(f: Frame, c: Check, accept: bool) {
    c.on && c.entry.Some? && |f| >= 2 && c.entry.value.accept == accept
  }

  /** Both header words are stored and the opcode is at the table's address. */
  predicate Stored(r: RegType, f: Frame) {
    |f| == 2 && r.hdr0 == f[0].data && r.hdr1 == f[1].data && r.raddr == Opcode(f[1].data)
  }

  /** The registers against the open frame f (empty if there is none) and its check. */
  ghost predicate StateOk(r: RegType, f: Frame, c: Check, held: Option<RxWord>) {
    && r.raddr < OPCODES && r.lutWaitCnt <= LUT_WAIT && (!r.state.LutWaitS? ==> r.lutWaitCnt == 0)
    && match r.state
       case IdleS => f == [] || Judged(f, c, false)
       case RdHdr0S => f == [] && held.Some? && held.value.sof
       case RdHdr1S => |f| == 1 && c.on && c.entry.None? && r.hdr0 == f[0].data
       case LutWaitS =>
         && Stored(r, f) && c.on && c.entry.None?
         && (r.lutWaitCnt >= 6 ==> |c.table| == OPCODES)
         && (r.lutWaitCnt == 6 ==> r.doutb == c.table[r.raddr]) && (r.lutWaitCnt == 7 ==> r.dly1 == c.table[r.raddr])
       case CheckAcceptS => Stored(r, f) && c.on && c.entry.None? && |c.table| == OPCODES && r.dly0 == c.table[r.raddr]
       case WrHdr0S => Stored(r, f) && Judged(f, c, true) && c.entry == Some(r.lutOut)
       case WrHdr1S => Stored(r, f) && Judged(f, c, true) && c.entry == Some(r.lutOut)
       case RdWrHdr2S => |f| == 2 && Judged(f, c, true) && c.entry == Some(r.lutOut)
       case RdWrHdr3S => |f| == 3 && Judged(f, c, true) && c.entry == Some(r.lutOut)
       case RdWrHdr4S => |f| == 4 && Judged(f, c, true) && c.entry == Some(r.lutOut)
       case FwdPayloadS => f != [] && (c.on ==> |f| >= 5 && Judged(f, c, true))
  }

  const NO_CHECK := NewCheck(false, Moment(0, 0))

  datatype History = History(ins: seq<RxWord>, checks: seq<Check>, out: seq<OutWord>)

  ghost function CurCheck(h: History): Check {
    if h.checks != [] then h.checks[|h.checks| - 1] else NO_CHECK
  }

  ghost predicate Inv(r: RegType, h: History, held: Option<RxWord>, p: Port) {
    var fs := Frames(h.ins);
    && AllChecked(fs, h.checks)
    && OutInv(fs, h.checks, h.out, Part(r.state, Cur(fs), CurCheck(h), p), p)
    && StateOk(r, Cur(fs), CurCheck(h), held)
  }

  lemma CurOpen(fs: seq<Frame>)
    ensures Cur(fs) != [] <==> IsOpen(fs)
    ensures IsOpen(fs) ==> fs != [] && Cur(fs) == fs[|fs| - 1]
  {
  }

  lemma SameLength(fs: seq<Frame>, cs: seq<Check>)
    requires AllChecked(fs, cs)
    ensures |fs| == |cs|
  {
  }

  /** The registers that change in every cycle. */
  function Base(r: RegType, table: seq<Entry>, txReady: bool): RegType
    requires |table| == OPCODES && r.raddr < OPCODES
  {
    r.(doutb := table[r.raddr], dly1 := r.doutb, dly0 := r.dly1, tx := if txReady then None else r.tx)
  }

  lemma IdleKeeps(r: RegType, b: RegType, h: History, p: Port)
    requires Inv(r, h, None, p) && b == r.(doutb := b.doutb, dly1 := b.dly1, dly0 := b.dly0, tx := b.tx)
    requires !r.state.RdHdr0S? && !r.state.LutWaitS? && !r.state.CheckAcceptS?
    ensures forall held :: Inv(b, h, held, p)
  {
    hide OutInv, Part, AllChecked, Frames;
  }

  /** An unchecked frame starts. */
  lemma StartKeeps(r: RegType, b: RegType, h: History, w: RxWord, start: Moment, p: Port)
    requires Inv(r, h, None, p) && r.state.IdleS? && w.sof && !IsOpen(Frames(h.ins))
    requires b == r.(doutb := b.doutb, dly1 := b.dly1, dly0 := b.dly0, tx := b.tx)
    ensures Inv(b.(tx := Some(Pass(w)), state := if w.last then IdleS else FwdPayloadS),
                History(h.ins + [w], h.checks + [NewCheck(false, start)], h.out + [Pass(w)]), None, p)
    ensures Inv(b.(state := RdHdr0S), h, Some(w), p)
  {
    var fs, c := Frames(h.ins), NewCheck(false, start);
    FramesPush(h.ins, w);
    CheckedStart(fs, h.checks, w, false, start);
    assert Emit([w], c, p) == [Pass(w)];
    OutStart(fs, h.checks, h.out, w, c, [Pass(w)], p);
    hide OutInv, AllChecked, Frames, Emit, Push, IsOpen;
  }

  /** A word outside any frame, or of a frame being dropped, is thrown away. */
  lemma SkipKeeps(r: RegType, b: RegType, h: History, w: RxWord, p: Port)
    requires Inv(r, h, None, p) && r.state.IdleS? && !w.sof
    requires b == r.(doutb := b.doutb, dly1 := b.dly1, dly0 := b.dly0, tx := b.tx)
    ensures Inv(b, h.(ins := h.ins + [w]), None, p)
  {
    var fs := Frames(h.ins);
    FramesPush(h.ins, w);
    if IsOpen(fs) {
      EmitMore(Cur(fs), w, CurCheck(h), p);
      CheckedMore(fs, h.checks, w);
      OutMore(fs, h.checks, h.out, [], w, [], [], p);
      assert h.out + [] == h.out;
      hide OutInv, AllChecked, Frames, Emit, Push;
      if !w.last {
        assert Judged(Cur(fs) + [w], CurCheck(h), false);
      }
    }
  }

  lemma Hdr0Keeps(r: RegType, b: RegType, h: History, held: Option<RxWord>, w: RxWord, start: Moment, p: Port)
    requires Inv(r, h, held, p) && r.state.RdHdr0S? && w.sof && !IsOpen(Frames(h.ins))
    requires b == r.(doutb := b.doutb, dly1 := b.dly1, dly0 := b.dly0, tx := b.tx)
    ensures Inv(b.(hdr0 := w.data, state := if w.last then IdleS else RdHdr1S),
                h.(ins := h.ins + [w], checks := h.checks + [NewCheck(true, start)]), None, p)
  {
    hide OutInv, AllChecked, Frames, Push, IsOpen, Cur, CheckOk;
    var fs := Frames(h.ins);
    FramesPush(h.ins, w);
    CurOpen(fs);
    CheckedStart(fs, h.checks, w, true, start);
    OutStart(fs, h.checks, h.out, w, NewCheck(true, start), [], p);
    assert h.out + [] == h.out;
  }

  lemma Hdr1Keeps(r: RegType, b: RegType, h: History, w: RxWord, p: Port)
    requires Inv(r, h, None, p) && r.state.RdHdr1S? && !w.sof
    requires b == r.(doutb := b.doutb, dly1 := b.dly1, dly0 := b.dly0, tx := b.tx)
    ensures Inv(b.(hdr1 := w.data, raddr := Opcode(w.data), state := if w.last then IdleS else LutWaitS),
                h.(ins := h.ins + [w]), None, p)
  {
    hide OutInv, AllChecked, Frames, Emit, Push, Opcode, IsOpen, Cur, CheckOk;
    var fs := Frames(h.ins);
    FramesPush(h.ins, w);
    CurOpen(fs);
    SameLength(fs, h.checks);
    EmitMore(Cur(fs), w, CurCheck(h), p);
    CheckedMore(fs, h.checks, w);
    OutMore(fs, h.checks, h.out, [], w, [], [], p);
    assert h.out + [] == h.out;
  }

  /** One cycle of waiting for the table; the sixth one reads the entry that will be used. */
  lemma WaitKeeps(r: RegType, h: History, table: seq<Entry>, txReady: bool, read: Moment, p: Port,
                  held: Option<RxWord>)
    requires Inv(r, h, None, p) && r.state.LutWaitS? && |table| == OPCODES
    ensures h.checks != []
    ensures var v := Base(r, table, txReady);
            var u := if r.lutWaitCnt == LUT_WAIT then v.(lutWaitCnt := 0, state := CheckAcceptS)
                     else v.(lutWaitCnt := r.lutWaitCnt + 1);
            var m := |h.checks| - 1;
            var c := h.checks[m].(table := table, read := read);
            Inv(u, if r.lutWaitCnt == 5 then h.(checks := h.checks[m := c])
                   else h, held, p)
  {
    var fs := Frames(h.ins);
    var c := CurCheck(h).(table := table, read := read);
    CheckedHere(fs, h.checks, c);
    OutHere(fs, h.checks, h.out, [], c, [], p);
    assert h.out + [] == h.out;
    hide OutInv, AllChecked, Frames, Emit;
  }

  /** The frame is judged. */
  lemma JudgeKeeps(r: RegType, b: RegType, h: History, p: Port, held: Option<RxWord>)
    requires Inv(r, h, None, p) && r.state.CheckAcceptS?
    requires b == r.(doutb := b.doutb, dly1 := b.dly1, dly0 := b.dly0, tx := b.tx)
    ensures h.checks != []
    ensures var m := |h.checks| - 1;
            var u := if r.dly0.accept then b.(lutOut := r.dly0, state := WrHdr0S)
                     else b.(lutDropCnt := if r.lutDropCnt != 255 then r.lutDropCnt + 1 else r.lutDropCnt,
                             state := IdleS);
            Inv(u, h.(checks := h.checks[m := h.checks[m].(entry := Some(r.dly0))]), held, p)
  {
    var fs := Frames(h.ins);
    var c := CurCheck(h).(entry := Some(r.dly0));
    assert Sampled(Cur(fs), c);
    CheckedHere(fs, h.checks, c);
    OutHere(fs, h.checks, h.out, [], c, [], p);
    assert h.out + [] == h.out;
    hide OutInv, AllChecked, Frames, Emit;
  }

  /** The stored header words go out. */
  lemma HeaderKeeps(r: RegType, b: RegType, h: History, p: Port, held: Option<RxWord>)
    requires Inv(r, h, None, p) && (r.state.WrHdr0S? || r.state.WrHdr1S?)
    requires b == r.(doutb := b.doutb, dly1 := b.dly1, dly0 := b.dly0, tx := b.tx)
    ensures var o := if r.state.WrHdr0S? then OutWord(Relabel(r.hdr0, p.lane, p.vc), true, false, false)
                     else OutWord(r.hdr1, false, false, false);
            var u := b.(tx := Some(o), state := if r.state.WrHdr0S? then WrHdr1S else RdWrHdr2S);
            Inv(u, h.(out := h.out + [o]), held, p)
  {
    var fs, c := Frames(h.ins), CurCheck(h);
    var f := Cur(fs);
    EmitHeader(f, c, r.lutOut, p);
    hide Emit, OutInv, AllChecked, Frames, Relabel, Opcode;
    assert h.checks[|fs| - 1 := c] == h.checks;
    if r.state.WrHdr0S? {
      var o := [WordOut(f[0], 0, r.lutOut, p)];
      OutHere(fs, h.checks, h.out, [], c, o, p);
      assert [] + o == Part(WrHdr1S, f, c, p);
    } else {
      OutHere(fs, h.checks, h.out, Emit(f[..1], c, p), c, [WordOut(f[1], 1, r.lutOut, p)], p);
    }
  }

  lemma EmitHeader(f: Frame, c: Check, e: Entry, p: Port)
    requires |f| == 2 && Judged(f, c, true) && c.entry == Some(e)
    ensures Emit(f[..1], c, p) == [WordOut(f[0], 0, e, p)]
    ensures Emit(f, c, p) == Emit(f[..1], c, p) + [WordOut(f[1], 1, e, p)]
  {
    var g := f[..1];
    assert g[..0] == [] && g[0] == f[0];
    assert Rewritten(g[..0], e, p) == [];
    assert Rewritten(g, e, p) == [WordOut(f[0], 0, e, p)];
  }

  /** The word that answers input word w in the states that stamp or forward. */
  function Answer(r: RegType, w: RxWord): OutWord {
    match r.state
    case RdWrHdr2S => OutWord(AsDw(r.lutOut.acceptCnt), false, w.last, w.last)
    case RdWrHdr3S => OutWord(r.lutOut.offset, false, w.last, w.last)
    case RdWrHdr4S => OutWord(r.lutOut.seconds, false, w.last, w.last)
    case _ => Pass(w)
  }

  function After(s: StateType): StateType {
    match s
    case RdWrHdr2S => RdWrHdr3S
    case RdWrHdr3S => RdWrHdr4S
    case RdWrHdr4S => FwdPayloadS
    case _ => s
  }

  predicate Moving(s: StateType) {
    s.RdWrHdr2S? || s.RdWrHdr3S? || s.RdWrHdr4S? || s.FwdPayloadS?
  }

  lemma MoveKeeps(r: RegType, b: RegType, h: History, w: RxWord, p: Port)
    requires Inv(r, h, None, p) && Moving(r.state) && !w.sof
    requires b == r.(doutb := b.doutb, dly1 := b.dly1, dly0 := b.dly0, tx := b.tx)
    ensures Inv(b.(tx := Some(Answer(r, w)), state := if w.last then IdleS else After(r.state)),
                h.(ins := h.ins + [w], out := h.out + [Answer(r, w)]), None, p)
  {
    hide AsDw, Opcode, OutInv, AllChecked, Frames, Emit, Push, IsOpen, Cur, CheckOk;
    var fs, c := Frames(h.ins), CurCheck(h);
    var f := Cur(fs);
    FramesPush(h.ins, w);
    CurOpen(fs);
    SameLength(fs, h.checks);
    EmitMore(f, w, c, p);
    assert Emit(f + [w], c, p) == Emit(f, c, p) + [Answer(r, w)];
    CheckedMore(fs, h.checks, w);
    OutMore(fs, h.checks, h.out, Emit(f, c, p), w, [Answer(r, w)], Emit(f + [w], c, p), p);
  }

  /** Frame j is open and exactly its two header words have been read. */
  ghost predicate TwoRead(fs: seq<Frame>, j: nat) {
    |fs| == j + 1 && IsOpen(fs) && |fs[j]| == 2
  }

  /** The inputs of one cycle of the receive clock: the word presented, the check line, the memory of the trigger
      table, whether the output is taken, and the counter reset. */
  datatype Inputs = Inputs(word: Option<RxWord>, check: bool, table: seq<Entry>, txReady: bool, countRst: bool)

  /** How a cycle changes the checks: not at all, or a frame starts, the table is read, or the frame is judged. now is
      the moment of the cycle, begun the edge at which a frame waiting for its first header word was turned to. */
  ghost predicate ChecksMore(cs: seq<Check>, cs': seq<Check>, r: RegType, fs: seq<Frame>, i: Inputs, now: Moment,
                             begun: nat) {
    || cs' == cs
    || (cs' == cs + [NewCheck(false, now)] && r.state.IdleS? && i.word.Some? && !i.check
        && i.word.value.sof && |fs| == |cs| && !IsOpen(fs))
    || (cs' == cs + [NewCheck(true, now.(edge := begun))] && r.state.RdHdr0S? && i.word.Some?
        && i.word.value.sof && |fs| == |cs| && !IsOpen(fs))
    || (cs != [] && TwoRead(fs, |cs| - 1) && r.state.LutWaitS? && r.lutWaitCnt == 5
        && cs' == cs[|cs| - 1 := cs[|cs| - 1].(table := i.table, read := now)])
    || (cs != [] && cs' != [] && cs' == cs[|cs| - 1 := cs[|cs| - 1].(entry := cs'[|cs'| - 1].entry)])
  }

  /** How a cycle changes the state, as far as the time of the two decisions depends on it. */
  predicate Course(r: RegType, r': RegType, i: Inputs, ready: bool) {
    && (r'.state.RdHdr0S? ==> r.state.IdleS? && i.word.Some? && i.check && !ready)
    && (r.state.RdHdr0S? ==> ready)
    && (r'.state.LutWaitS? ==>
          if ready then r'.lutWaitCnt == 0 else r.state.LutWaitS? && r'.lutWaitCnt == r.lutWaitCnt + 1)
    && (r.state.IdleS? && i.word.Some? && i.word.value.sof && i.check ==> r'.state.RdHdr0S?)
  }

  /** While the table is read, exactly the two header words of the last frame have been read. */
  lemma Waits(r: RegType, h: History, held: Option<RxWord>, p: Port)
    requires Inv(r, h, held, p) && r.state.LutWaitS?
    ensures h.checks != [] && TwoRead(Frames(h.ins), |h.checks| - 1)
  {
    hide OutInv, Frames, CheckOk, Part;
    CurOpen(Frames(h.ins));
  }

  /** The frames dropped: those judged by an entry that is not accepted. */
  function Drops(cs: seq<Check>): nat {
    if cs == [] then 0
    else
      var c := cs[|cs| - 1];
      Drops(cs[..|cs| - 1]) + if c.entry.Some? && !c.entry.value.accept then 1 else 0
  }

  /** The drop counter in 8 bits counts the frames dropped and stays at its highest value. */
  predicate Counted(n: nat, cs: seq<Check>, cs': seq<Check>, n': nat) {
    Drops(cs) <= Drops(cs') <= Drops(cs) + 1 && n' == if Drops(cs') > Drops(cs) && n != 255 then n + 1 else n
  }

  lemma DropsPush(cs: seq<Check>, c: Check)
    requires c.entry.None?
    ensures Drops(cs + [c]) == Drops(cs)
  {
    assert (cs + [c])[..|cs|] == cs;
  }

  lemma DropsLast(cs: seq<Check>, c: Check)
    requires cs != [] && cs[|cs| - 1].entry.None?
    ensures Drops(cs[|cs| - 1 := c]) == Drops(cs) + if c.entry.Some? && !c.entry.value.accept then 1 else 0
  {
    assert cs[|cs| - 1 := c][..|cs| - 1] == cs[..|cs| - 1];
  }

  /** While a frame is looked up it has not been judged. */
  lemma Unjudged(r: RegType, h: History, held: Option<RxWord>, p: Port)
    requires Inv(r, h, held, p) && (r.state.LutWaitS? || r.state.CheckAcceptS?)
    ensures h.checks != [] && h.checks[|h.checks| - 1].entry.None?
  {
    hide OutInv, Frames, Part;
  }

  /** The cycles before the next word is read, if words keep coming and the output is ready. */
  function Weight(r: RegType): (n: nat)
    ensures n <= 4 + LUT_WAIT
  {
    match r.state
    case IdleS => 1
    case LutWaitS => if r.lutWaitCnt <= LUT_WAIT then 4 + LUT_WAIT - r.lutWaitCnt else 4
    case CheckAcceptS => 3
    case WrHdr0S => 2
    case WrHdr1S => 1
    case _ => 0
  }

  class PgpVcRxBuffer {
    const port: Port
    var r: RegType
    ghost var h: History
    ghost var sent: seq<OutWord>
    ghost var held: Option<RxWord>        // a word presented and not yet accepted
    ghost var begun: nat                  // the edge at which the buffer turned to the last frame it checks

    ghost predicate Valid()
      reads this
    {
      Inv(r, h, held, port) && h.out == sent + (if r.tx.Some? then [r.tx.value] else [])
    }

    constructor (port: Port)
      ensures Valid() && this.port == port && h == History([], [], []) && sent == [] && held == None
      ensures r == BUFFER_INIT
    {
      this.port := port;
      r := BUFFER_INIT;
      h, sent, held, begun := History([], [], []), [], None, 0;
    }

    /** The states that wait for a frame and read its header. v is r after the registers that always change. */
    method Reads(v: RegType, i: Inputs, ghost now: Moment) returns (v': RegType, ready: bool)
      requires Inv(r, h, held, port) && (held.Some? ==> i.word == held) && (!r.state.RdHdr0S? ==> held == None)
      requires i.word.Some? && i.word.value.sof ==> !IsOpen(Frames(h.ins))
      requires r.state.IdleS? || r.state.RdHdr0S? || r.state.RdHdr1S?
      requires v == r.(doutb := v.doutb, dly1 := v.dly1, dly0 := v.dly0, tx := v.tx)
      modifies this`h, this`begun
      ensures Inv(v', h, if ready then None else i.word, port) && Taken(old(h), h, i.word, ready, v.tx, v'.tx)
      ensures ChecksMore(old(h).checks, h.checks, r, Frames(old(h).ins), i, now, old(begun))
      ensures |h.checks| > |old(h).checks| ==> ready
      ensures Course(r, v', i, ready) && (v'.state.RdHdr0S? ==> begun == now.edge)
      ensures Counted(r.lutDropCnt, old(h).checks, h.checks, v'.lutDropCnt)
      ensures ready || Weight(v') <= Weight(r)
      ensures i.word.Some? && v.tx.None? ==> ready || Weight(v') < Weight(r)
    {
      hide Inv, Frames, IsOpen, Opcode, Drops;
      v', ready := v, false;
      Addressed(r, h, held, port);
      Matched(r, h, held, port);
      if r.state.IdleS? {
        IdleKeeps(r, v, h, port);
        if i.word.Some? {
          var w := i.word.value;
          if w.sof {
            StartKeeps(r, v, h, w, now, port);
            if i.check {
              v', begun := v.(state := RdHdr0S), now.edge;
            } else if v.tx.None? {
              ready := true;
              v' := v.(tx := Some(Pass(w)), state := if w.last then IdleS else FwdPayloadS);
              DropsPush(h.checks, NewCheck(false, now));
              h := History(h.ins + [w], h.checks + [NewCheck(false, now)], h.out + [Pass(w)]);
            }
          } else {
            SkipKeeps(r, v, h, w, port);
            ready := true;
            h := h.(ins := h.ins + [w]);
          }
        }
      } else if r.state.RdHdr0S? {
        var w := i.word.value;
        Hdr0Keeps(r, v, h, held, w, now.(edge := begun), port);
        ready := true;
        v' := v.(hdr0 := w.data, state := if w.last then IdleS else RdHdr1S);
        DropsPush(h.checks, NewCheck(true, now.(edge := begun)));
        h := h.(ins := h.ins + [w], checks := h.checks + [NewCheck(true, now.(edge := begun))]);
      } else {
        IdleKeeps(r, v, h, port);
        if i.word.Some? {
          var w := i.word.value;
          Hdr1Keeps(r, v, h, w, port);
          ready := true;
          v' := v.(hdr1 := w.data, raddr := Opcode(w.data), state := if w.last then IdleS else LutWaitS);
          h := h.(ins := h.ins + [w]);
        }
      }
    }

    /** The states that wait for the table and judge the frame. */
    method Looks(v: RegType, i: Inputs, ghost now: Moment) returns (v': RegType)
      requires Inv(r, h, None, port) && (r.state.LutWaitS? || r.state.CheckAcceptS?)
      requires |i.table| == OPCODES && r.raddr < OPCODES && v == Base(r, i.table, i.txReady)
      requires r.lutWaitCnt <= LUT_WAIT
      modifies this`h
      ensures Inv(v', h, i.word, port) && v'.tx == v.tx && h == old(h).(checks := h.checks)
      ensures ChecksMore(old(h).checks, h.checks, r, Frames(old(h).ins), i, now, begun)
      ensures Course(r, v', i, false) && Weight(v') < Weight(r)
      ensures Counted(r.lutDropCnt, old(h).checks, h.checks, v'.lutDropCnt)
    {
      hide Inv, TwoRead, Drops;
      Unjudged(r, h, None, port);
      if r.state.LutWaitS? {
        Waits(r, h, None, port);
        WaitKeeps(r, h, i.table, i.txReady, now, port, i.word);
        if r.lutWaitCnt == 5 {
          ghost var m := |h.checks| - 1;
          DropsLast(h.checks, h.checks[m].(table := i.table, read := now));
          h := h.(checks := h.checks[m := h.checks[m].(table := i.table, read := now)]);
        }
        v' := if r.lutWaitCnt == LUT_WAIT then v.(lutWaitCnt := 0, state := CheckAcceptS)
              else v.(lutWaitCnt := r.lutWaitCnt + 1);
      } else {
        JudgeKeeps(r, v, h, port, i.word);
        ghost var m := |h.checks| - 1;
        DropsLast(h.checks, h.checks[m].(entry := Some(r.dly0)));
        h := h.(checks := h.checks[m := h.checks[m].(entry := Some(r.dly0))]);
        v' := if r.dly0.accept then v.(lutOut := r.dly0, state := WrHdr0S)
              else v.(lutDropCnt := if r.lutDropCnt != 255 then r.lutDropCnt + 1 else r.lutDropCnt, state := IdleS);
      }
    }

    /** The states that write: the stored header words, the table's words, and the rest of the frame. */
    method Writes(v: RegType, i: Inputs) returns (v': RegType, ready: bool)
      requires Inv(r, h, None, port) && (r.state.WrHdr0S? || r.state.WrHdr1S? || Moving(r.state))
      requires i.word.Some? ==> !i.word.value.sof
      requires v == r.(doutb := v.doutb, dly1 := v.dly1, dly0 := v.dly0, tx := v.tx)
      modifies this`h
      ensures Inv(v', h, if ready then None else i.word, port) && Taken(old(h), h, i.word, ready, v.tx, v'.tx)
      ensures h.checks == old(h.checks) && Course(r, v', i, ready) && v'.lutDropCnt == r.lutDropCnt
      ensures ready || Weight(v') <= Weight(r)
      ensures i.word.Some? && v.tx.None? ==> ready || Weight(v') < Weight(r)
    {
      hide Inv, Relabel, AsDw;
      v', ready := v, false;
      IdleKeeps(r, v, h, port);
      if v.tx.None? {
        if r.state.WrHdr0S? || r.state.WrHdr1S? {
          HeaderKeeps(r, v, h, port, i.word);
          var o := if r.state.WrHdr0S? then OutWord(Relabel(r.hdr0, port.lane, port.vc), true, false, false)
                   else OutWord(r.hdr1, false, false, false);
          v' := v.(tx := Some(o), state := if r.state.WrHdr0S? then WrHdr1S else RdWrHdr2S);
          h := h.(out := h.out + [o]);
        } else if i.word.Some? {
          var w := i.word.value;
          MoveKeeps(r, v, h, w, port);
          ready := true;
          v' := v.(tx := Some(Answer(r, w)), state := if w.last then IdleS else After(r.state));
          h := h.(ins := h.ins + [w], out := h.out + [Answer(r, w)]);
        }
      }
    }

    /** The state machine. */
    method Turn(v: RegType, i: Inputs, ghost now: Moment) returns (v': RegType, ready: bool)
      requires Inv(r, h, held, port) && (held.Some? ==> i.word == held)
      requires i.word.Some? && i.word.value.sof ==> !IsOpen(Frames(h.ins))
      requires |i.table| == OPCODES && r.raddr < OPCODES && v == Base(r, i.table, i.txReady)
      modifies this`h, this`held, this`begun
      ensures held == (if ready then None else i.word) && Inv(v', h, held, port)
      ensures Taken(old(h), h, i.word, ready, v.tx, v'.tx)
      ensures ChecksMore(old(h).checks, h.checks, r, Frames(old(h).ins), i, now, old(begun))
      ensures |h.checks| > |old(h).checks| ==> ready
      ensures Course(r, v', i, ready) && (v'.state.RdHdr0S? ==> begun == now.edge)
      ensures Counted(r.lutDropCnt, old(h).checks, h.checks, v'.lutDropCnt)
      ensures ready || Weight(v') <= Weight(r)
      ensures i.word.Some? && v.tx.None? ==> ready || Weight(v') < Weight(r)
    {
      hide Inv, Frames, IsOpen, Weight, Drops;
      v', ready := v, false;
      Addressed(r, h, held, port);
      Released(r, h, held, i.word, port);
      if r.state.LutWaitS? || r.state.CheckAcceptS? {
        v' := Looks(v, i, now);
      } else if r.state.IdleS? || r.state.RdHdr0S? || r.state.RdHdr1S? {
        held := if r.state.RdHdr0S? then held else None;
        v', ready := Reads(v, i, now);
      } else {
        v', ready := Writes(v, i);
      }
      held := if ready then None else i.word;
    }

    /** One cycle of the receive clock. now is the moment of the cycle. */
    method Step(i: Inputs, ghost now: Moment) returns (ready: bool)
      requires Valid() && |i.table| == OPCODES && (held.Some? ==> i.word == held)
      requires i.word.Some? && i.word.value.sof ==> !IsOpen(Frames(h.ins))
      modifies this
      ensures Valid()
      ensures ready ==> i.word.Some?
      ensures h.ins == old(h.ins) + (if ready then [i.word.value] else []) && held == if ready then None else i.word
      ensures sent == old(sent) + if i.txReady && old(r.tx.Some?) then [old(r).tx.value] else []
      ensures ChecksMore(old(h).checks, h.checks, old(r), Frames(old(h).ins), i, now, old(begun))
      ensures |h.checks| > |old(h).checks| ==> ready
      ensures Course(old(r), r, i, ready) && (r.state.RdHdr0S? ==> begun == now.edge)
      ensures if i.countRst then r.lutDropCnt == 0
              else Counted(old(r.lutDropCnt), old(h).checks, h.checks, r.lutDropCnt)
      ensures ready || Weight(r) <= Weight(old(r))
      ensures i.word.Some? && i.txReady ==> ready || Weight(r) < Weight(old(r))
    {
      hide Inv, Frames, IsOpen, ChecksMore, Counted;
      Addressed(r, h, held, port);
      var v := Base(r, i.table, i.txReady);
      v, ready := Turn(v, i, now);
      sent := sent + if i.txReady && r.tx.Some? then [r.tx.value] else [];
      DropCount(v, h, held, port);
      r := if i.countRst then v.(lutDropCnt := 0) else v;
    }
  }

  /** What a cycle adds to the histories: the accepted word, and the word put into the output register. */
  ghost predicate Taken(h: History, h': History, word: Option<RxWord>, ready: bool, tx: Option<OutWord>,
                        tx': Option<OutWord>) {
    && (ready ==> word.Some?)
    && h'.ins == h.ins + (if ready then [word.value] else [])
    && ((tx' == tx && h'.out == h.out) || (tx.None? && tx'.Some? && h'.out == h.out + [tx'.value]))
  }

  lemma DropCount(r: RegType, h: History, held: Option<RxWord>, p: Port)
    requires Inv(r, h, held, p)
    ensures Inv(r.(lutDropCnt := 0), h, held, p)
  {
    hide OutInv, AllChecked, Frames, Emit;
  }

  lemma Addressed(r: RegType, h: History, held: Option<RxWord>, p: Port)
    requires Inv(r, h, held, p)
    ensures r.raddr < OPCODES && r.lutWaitCnt <= LUT_WAIT && (!r.state.LutWaitS? ==> r.lutWaitCnt == 0)
    ensures r.state.RdHdr0S? ==> held.Some? && held.value.sof && !IsOpen(Frames(h.ins))
    ensures r.state != IdleS && !r.state.RdHdr0S? ==> IsOpen(Frames(h.ins))
  {
  }

  lemma Matched(r: RegType, h: History, held: Option<RxWord>, p: Port)
    requires Inv(r, h, held, p)
    ensures |h.checks| == |Frames(h.ins)|
  {
  }

  /** Which word is waiting matters only for the first header word; the drop counter never matters. */
  lemma Released(r: RegType, h: History, held: Option<RxWord>, held': Option<RxWord>, p: Port)
    requires Inv(r, h, held, p)
    ensures !r.state.RdHdr0S? ==> Inv(r, h, held', p) && Inv(r, h, None, p)
  {
  }
}
