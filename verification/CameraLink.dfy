/** The Camera Link serial port: bit timing shared by the serialiser and the decoder. */
module SerialTiming {

  datatype Rate = MHz125 | MHz62

  /** Clock cycles per second. */
  function Hz(rate: Rate): nat {
    if rate.MHz125? then 125000000 else 62500000
  }

  /** The tolerance windows of the decoder, in units of cycles times baud rate. */
  const M125 := [117187500, 238281250, 359375000, 480468750, 601562500, 722656250, 843750000, 964843750, 1085937500]
  const P125 := [132812500, 261718750, 390625000, 519531250, 648437500, 777343750, 906250000, 1035156250, 1164062500]
  const M62 := [58593750, 119140625, 179687500, 240234375, 300781250, 361328125, 421875000, 482421875, 542968750]
  const P62 := [66406250, 130859375, 195312500, 259765625, 324218750, 388671875, 453125000, 517578125, 582031250]

  /** n bit times, minus or plus (n + 1) parts in 32 of one bit time. */
  function CyclesM(rate: Rate, n: nat): (m: nat)
    requires 1 <= n <= 9
    ensures 32 * m == 32 * n * Hz(rate) - (n + 1) * Hz(rate)
  {
    if rate.MHz125? then M125[n - 1] else M62[n - 1]
  }

  function CyclesP(rate: Rate, n: nat): (p: nat)
    requires 1 <= n <= 9
    ensures 32 * p == 32 * n * Hz(rate) + (n + 1) * Hz(rate)
  {
    if rate.MHz125? then P125[n - 1] else P62[n - 1]
  }

  predicate InWindow(rate: Rate, c: nat, n: nat)
    requires 1 <= n <= 9
  {
    CyclesM(rate, n) < c < CyclesP(rate, n)
  }

  /** The number of bit times a run of c lasted; 0 when it fits no window. */
  function Width(rate: Rate, c: nat): (n: nat)
    ensures n <= 9
    ensures n > 0 ==> InWindow(rate, c, n)
  {
    if InWindow(rate, c, 1) then 1
    else if InWindow(rate, c, 2) then 2
    else if InWindow(rate, c, 3) then 3
    else if InWindow(rate, c, 4) then 4
    else if InWindow(rate, c, 5) then 5
    else if InWindow(rate, c, 6) then 6
    else if InWindow(rate, c, 7) then 7
    else if InWindow(rate, c, 8) then 8
    else if InWindow(rate, c, 9) then 9
    else 0
  }

  /** The windows are disjoint and increasing. */
  lemma WindowsApart(rate: Rate, n: nat, k: nat)
    requires 1 <= n < k <= 9
    ensures CyclesP(rate, n) < CyclesM(rate, k)
  {
  }

  lemma WidthIs(rate: Rate, c: nat, n: nat)
    requires 1 <= n <= 9 && InWindow(rate, c, n)
    ensures Width(rate, c) == n
  {
    if 1 < n { WindowsApart(rate, 1, n); } else { forall k | 1 < k <= 9 { WindowsApart(rate, 1, k); } }
  }
}

/** What a serial line looks like: idle, or some tick of some bit of a framed byte. */
module SerialLine {
  import opened SerialTiming

  type Bits = s: seq<bool> | |s| == 8 witness [false, false, false, false, false, false, false, false]

  /** Start bit, data bits from the least significant one, stop bit. */
  function Framed(byte: Bits): (f: seq<bool>)
    ensures |f| == 10 && !f[0] && f[9]
    ensures forall k :: 0 <= k < 8 ==> f[k + 1] == byte[k]
  {
    [false] + byte + [true]
  }

  datatype Line = Idle | Sending(byte: Bits, bit: nat, tick: nat)

  /** A usable baud rate: at least 55 clock cycles a bit. */
  predicate BaudOk(rate: Rate, baud: nat) {
    0 < baud && 55 * baud <= Hz(rate)
  }

  /** Every bit takes ticks 0 .. LastTick. */
  function LastTick(rate: Rate, baud: nat): nat
    requires baud > 0
  {
    (Hz(rate) + baud - 1) / baud
  }

  predicate LineOk(rate: Rate, baud: nat, l: Line)
    requires baud > 0
  {
    l.Sending? ==> l.bit < 10 && l.tick <= LastTick(rate, baud)
  }

  function Level(l: Line): bool {
    if l.Sending? && l.bit < 10 then Framed(l.byte)[l.bit] else true
  }

  /** One clock cycle of the line; only an idle line may start a byte. */
  predicate LineNext(rate: Rate, baud: nat, l: Line, l': Line)
    requires baud > 0
  {
    match l
    case Idle => l'.Idle? || (l'.bit == 0 && l'.tick == 0)
    case Sending(byte, bit, tick) =>
      if tick < LastTick(rate, baud) then l' == Sending(byte, bit, tick + 1)
      else if bit < 9 then l' == Sending(byte, bit + 1, 0)
      else l' == Idle
  }

  /** The serialiser's comparison ends a bit exactly at the last tick. */
  lemma TickEnds(rate: Rate, baud: nat, tick: nat)
    requires baud > 0
    ensures tick * baud < Hz(rate) <==> tick < LastTick(rate, baud)
  {
    var n := LastTick(rate, baud);
    var x := Hz(rate) + baud - 1;
    assert n * baud <= x < n * baud + baud by { DivBounds(x, baud); }
    if tick < n {
      MulLe(tick + 1, n, baud);
      MulSucc(tick, baud);
    } else {
      MulLe(n, tick, baud);
    }
  }

  lemma DivBounds(x: nat, d: nat)
    requires d > 0
    ensures (x / d) * d <= x < (x / d) * d + d
  {
    assert x == (x / d) * d + x % d;
  }

  lemma MulLe(a: nat, b: nat, c: nat)
    requires a <= b
    ensures a * c <= b * c
  {
  }

  lemma MulSucc(a: nat, c: nat)
    ensures (a + 1) * c == a * c + c
  {
  }

  /** Cycles counted over n bits and t further ticks. */
  function RunCycles(rate: Rate, baud: nat, n: nat, t: nat): nat
    requires baud > 0
  {
    n * (LastTick(rate, baud) * baud + baud) + t * baud
  }

  lemma RunTick(rate: Rate, baud: nat, n: nat, t: nat)
    requires baud > 0
    ensures RunCycles(rate, baud, n, t + 1) == RunCycles(rate, baud, n, t) + baud
    ensures RunCycles(rate, baud, n + 1, 0) == RunCycles(rate, baud, n, LastTick(rate, baud)) + baud
    ensures RunCycles(rate, baud, 0, 0) == 0
  {
    MulSucc(t, baud);
    MulSucc(n, LastTick(rate, baud) * baud + baud);
  }

  lemma BitTime(rate: Rate, baud: nat)
    requires baud > 0
    ensures Hz(rate) <= LastTick(rate, baud) * baud < Hz(rate) + baud
  {
    DivBounds(Hz(rate) + baud - 1, baud);
  }

  /** A run of n bits, seen one tick after its end, falls into window n; while it lasts it never
      passes the upper edge of that window, and n + 1 bits pass the lower edge of window n + 1
      before the last tick. */
  lemma RunFits(rate: Rate, baud: nat, n: nat, t: nat)
    requires BaudOk(rate, baud) && 1 <= n <= 9 && t <= LastTick(rate, baud)
    ensures InWindow(rate, RunCycles(rate, baud, n - 1, LastTick(rate, baud)), n)
    ensures RunCycles(rate, baud, n - 1, t) < CyclesP(rate, n)
    ensures RunCycles(rate, baud, n - 1, LastTick(rate, baud)) - baud > CyclesM(rate, n)
  {
    BitTime(rate, baud);
    MulLe(t, LastTick(rate, baud), baud);
    var x := LastTick(rate, baud) * baud + baud;
    RunTimes(n - 1, x);
  }

  lemma RunTimes(n: nat, x: nat)
    requires n <= 8
    ensures n * x == if n == 0 then 0 else if n == 1 then x else if n == 2 then 2 * x else if n == 3 then 3 * x
              else if n == 4 then 4 * x else if n == 5 then 5 * x else if n == 6 then 6 * x else if n == 7 then 7 * x
              else 8 * x
  {
  }
}

/** CLinkTx: the 10-bit serialiser. */
module SerialTx {
  import opened AxiStream
  import opened SerialTiming
  import opened SerialLine

  const WORD := 0x1_0000_0000

  class CLinkTx {
    const rate: Rate
    const baud: nat
    var sFifo: seq<Bits>
    var sFifoRdEn: bool
    var serSend: bool
    var serBits: seq<bool>
    var sendBit: nat
    var serCycles: nat
    var sertc: bool
    ghost var pushed: seq<Bits>
    ghost var taken: seq<Bits>
    ghost var line: Line

    ghost predicate Valid()
      reads this
    {
      && BaudOk(rate, baud)
      && Shifting(rate, baud, line, serSend, serBits, sendBit, serCycles, sertc)
      && Queued(pushed, taken, sFifo, sFifoRdEn, line)
    }

    constructor (rate: Rate, baud: nat)
      requires BaudOk(rate, baud)
      ensures Valid() && this.rate == rate && this.baud == baud
      ensures line == Idle && pushed == [] && taken == [] && sFifo == []
    {
      this.rate, this.baud := rate, baud;
      sFifo, sFifoRdEn, serSend, serBits, sendBit, serCycles, sertc := [], false, false, [], 0, 0, true;
      pushed, taken, line := [], [], Idle;
    }

    /** The clocked process: byte is the visible head of the byte queue. */
    method Clock(byte: Option<Bits>)
      requires BaudOk(rate, baud) && Shifting(rate, baud, line, serSend, serBits, sendBit, serCycles, sertc)
      modifies this`sFifoRdEn, this`serSend, this`serBits, this`sendBit, this`serCycles, this`sertc, this`line
      ensures Shifting(rate, baud, line, serSend, serBits, sendBit, serCycles, sertc)
      ensures LineNext(rate, baud, old(line), line)
      ensures sFifoRdEn == (old(line).Idle? && byte.Some?)
      ensures old(line).Idle? ==> line == if byte.Some? then Sending(byte.value, 0, 0) else Idle
    {
      hide BaudOk, Shifting, LineNext, Framed, Hz;
      Bits9(rate, baud, line, serSend, serBits, sendBit, serCycles, sertc);
      ShiftStep(rate, baud, line, serSend, serBits, sendBit, serCycles, sertc);
      if sFifoRdEn {
        sFifoRdEn := false;
      }
      if !serSend && byte.Some? {
        Opens(rate, baud, byte.value);
        serSend := true;
        serBits := Framed(byte.value);
        sendBit := 0;
        sertc := false;
        serCycles := 0;
        sFifoRdEn := true;
        line := Sending(byte.value, 0, 0);
      } else if serSend {
        if serCycles < Hz(rate) {
          serCycles := (serCycles + baud) % WORD;
          line := Sending(line.byte, line.bit, line.tick + 1);
        } else if sendBit > 8 {
          serSend := false;
          sertc := true;
          line := Idle;
        } else {
          sendBit := sendBit + 1;
          sertc := serBits[sendBit];
          serCycles := 0;
          line := Sending(line.byte, line.bit + 1, 0);
        }
      }
    }

    /** One txClk cycle with its byte queue; push is a byte written by software. */
    method Step(push: Option<Bits>)
      requires Valid()
      modifies this
      ensures Valid()
      ensures LineNext(rate, baud, old(line), line)
      ensures pushed == old(pushed) + if push.Some? then [push.value] else []
      ensures taken == old(taken) + if old(line).Idle? && line.Sending? then [line.byte] else []
      ensures old(line).Idle? ==> line.Sending? == (old(sFifo) != [])
      ensures old(sFifoRdEn) ==> old(line).Sending? && old(sFifo) != []
      ensures sFifo == (if old(sFifoRdEn) then old(sFifo)[1..] else old(sFifo))
              + if push.Some? then [push.value] else []
      ensures sFifoRdEn == (old(line).Idle? && old(sFifo) != [])
    {
      hide BaudOk, Shifting, Queued, LineNext;
      QueueHead(pushed, taken, sFifo, sFifoRdEn, line);
      ghost var l, q, rd := line, sFifo, sFifoRdEn;
      var rdEn, head := sFifoRdEn, if sFifo != [] then Some(sFifo[0]) else None;
      Clock(head);
      sFifo := (if rdEn then sFifo[1..] else sFifo) + (if push.Some? then [push.value] else []);
      pushed := pushed + if push.Some? then [push.value] else [];
      taken := taken + if sFifoRdEn then [line.byte] else [];
      QueueStep(old(pushed), old(taken), q, rd, l, push, line);
    }
  }

  /** The serialiser's registers at one tick of the line. */
  ghost predicate Shifting(rate: Rate, baud: nat, line: Line,
                           serSend: bool, serBits: seq<bool>, sendBit: nat, serCycles: nat, sertc: bool)
  {
    && baud > 0 && LineOk(rate, baud, line)
    && sertc == Level(line)
    && serSend == line.Sending?
    && (serSend ==> serBits == Framed(line.byte) && sendBit == line.bit && serCycles == line.tick * baud)
  }

  /** Every byte pushed is either taken by the serialiser or still queued; the byte just taken leaves the
      queue one cycle later. */
  ghost predicate Queued(pushed: seq<Bits>, taken: seq<Bits>, sFifo: seq<Bits>, sFifoRdEn: bool, line: Line) {
    && (sFifoRdEn ==> line.Sending? && sFifo != [])
    && pushed == taken + if sFifoRdEn then sFifo[1..] else sFifo
  }

  lemma QueueTaken(pushed: seq<Bits>, taken: seq<Bits>, sFifo: seq<Bits>, sFifoRdEn: bool, line: Line)
    requires Queued(pushed, taken, sFifo, sFifoRdEn, line)
    ensures taken <= pushed && (sFifo == [] ==> taken == pushed)
  {
  }

  lemma QueueHead(pushed: seq<Bits>, taken: seq<Bits>, sFifo: seq<Bits>, sFifoRdEn: bool, line: Line)
    requires Queued(pushed, taken, sFifo, sFifoRdEn, line)
    ensures sFifoRdEn ==> line.Sending? && sFifo != []
  {
  }

  lemma QueueStep(pushed: seq<Bits>, taken: seq<Bits>, q: seq<Bits>, rd: bool, l: Line, push: Option<Bits>, l': Line)
    requires Queued(pushed, taken, q, rd, l)
    requires l.Idle? && q != [] ==> l'.Sending?
    ensures var take := l.Idle? && q != [];
            Queued(pushed + (if push.Some? then [push.value] else []),
                   taken + (if take then [q[0]] else []),
                   (if rd then q[1..] else q) + (if push.Some? then [push.value] else []),
                   take, l')
  {
    if l.Idle? && q != [] {
      assert q == [q[0]] + q[1..];
    }
  }

  lemma Bits9(rate: Rate, baud: nat, line: Line, serSend: bool, serBits: seq<bool>, sendBit: nat, serCycles: nat,
              sertc: bool)
    requires Shifting(rate, baud, line, serSend, serBits, sendBit, serCycles, sertc)
    ensures serSend == line.Sending? && sertc == Level(line) && baud > 0
    ensures serSend ==> |serBits| == 10 && sendBit < 10
  {
  }

  /** One tick of a byte being sent. */
  lemma ShiftStep(rate: Rate, baud: nat, line: Line, serSend: bool, serBits: seq<bool>, sendBit: nat, serCycles: nat,
                  sertc: bool)
    requires Shifting(rate, baud, line, serSend, serBits, sendBit, serCycles, sertc) && BaudOk(rate, baud)
    ensures !serSend ==> LineNext(rate, baud, line, line)
    ensures serSend ==>
      if serCycles < Hz(rate) then
        var l := Sending(line.byte, line.bit, line.tick + 1);
        LineNext(rate, baud, line, l)
        && Shifting(rate, baud, l, true, serBits, sendBit, (serCycles + baud) % WORD, sertc)
      else if sendBit > 8 then
        LineNext(rate, baud, line, Idle) && Shifting(rate, baud, Idle, false, serBits, sendBit, serCycles, true)
      else
        var l := Sending(line.byte, line.bit + 1, 0);
        LineNext(rate, baud, line, l) && Shifting(rate, baud, l, true, serBits, sendBit + 1, 0, serBits[sendBit + 1])
  {
    if serSend {
      TickEnds(rate, baud, line.tick);
      MulSucc(line.tick, baud);
    }
  }

  lemma Opens(rate: Rate, baud: nat, byte: Bits)
    requires baud > 0
    ensures LineNext(rate, baud, Idle, Sending(byte, 0, 0))
    ensures Shifting(rate, baud, Sending(byte, 0, 0), true, Framed(byte), 0, 0, false)
  {
  }
}

/** CLinkRx: the run-length decoder of the serial line. */
module SerialRx {
  import opened AxiStream
  import opened SerialTiming
  import opened SerialLine

  const WORD := 0x1_0000_0000

  /** serStep: "00", "10" and "11". */
  datatype Phase = WaitFall | LowRun | HighRun

  datatype Decoder = Decoder(serSync: bool, serStep: Phase, serBit: nat, serMax: nat, serCycles: nat,
                             sFifoByte: Bits, sFifoWrEn: bool, sertfg1: bool)

  const ZEROS: Bits := [false, false, false, false, false, false, false, false]

  const DECODER_INIT := Decoder(false, WaitFall, 0, 0, 0, ZEROS, false, false)

  /** The slice assignment byte(hi downto lo) <= v; both ends must be inside the byte. */
  function SetBits(byte: Bits, lo: nat, hi: int, v: bool): (r: Bits)
    requires hi < 8
    ensures forall k :: 0 <= k < 8 ==> r[k] == if lo <= k <= hi then v else byte[k]
  {
    seq(8, k requires 0 <= k < 8 => if lo <= k <= hi then v else byte[k])
  }

  /** Lost synchronisation. */
  function Resync(d: Decoder): Decoder {
    d.(serSync := false, serBit := 0, serMax := 9, serStep := WaitFall)
  }

  predicate Over(rate: Rate, serMax: nat, serCycles: nat) {
    1 <= serMax <= 9 && serCycles > CyclesP(rate, serMax)
  }

  predicate Complete(rate: Rate, serMax: nat, serCycles: nat) {
    1 <= serMax <= 9 && serCycles > CyclesM(rate, serMax)
  }

  /** A run of zeros: n bits on the rising edge, or a problem. */
  function LowCase(rate: Rate, baud: nat, d: Decoder, sertfg: bool): Decoder
    requires d.serStep.LowRun? && SafeRun(d)
  {
    if Over(rate, d.serMax, d.serCycles) then
      Resync(d).(serCycles := 0, sFifoWrEn := false)
    else if sertfg then
      var n := Width(rate, d.serCycles);
      if n == 0 then Resync(d).(serCycles := 0, sFifoWrEn := false)
      else
        NotOver(rate, d, n);
        var lo := if d.serBit > 0 then d.serBit - 1 else 0;
        d.(serBit := d.serBit + n, serMax := d.serMax - (n - 1), serStep := HighRun, serCycles := 0, sFifoWrEn := false,
           sFifoByte := SetBits(d.sFifoByte, lo, d.serBit + n - 2, false))
    else d.(serCycles := (d.serCycles + baud) % WORD, sFifoWrEn := false)
  }

  /** A run of ones: n bits on the falling edge, the rest of the byte when it lasts, or a problem. */
  function HighCase(rate: Rate, baud: nat, d: Decoder, sertfg: bool): Decoder
    requires d.serStep.HighRun? && SafeRun(d)
  {
    if Complete(rate, d.serMax, d.serCycles) then
      d.(serBit := 0, serMax := 9, serStep := WaitFall, serCycles := 0, sFifoWrEn := true,
         sFifoByte := SetBits(d.sFifoByte, d.serBit - 1, 7, true))
    else if !sertfg then
      var n := Width(rate, d.serCycles);
      if 1 <= n <= 7 && d.serMax > n + 1 then
        d.(serBit := d.serBit + n, serMax := d.serMax - (n + 1), serStep := LowRun, serCycles := 0, sFifoWrEn := false,
           sFifoByte := SetBits(d.sFifoByte, d.serBit - 1, d.serBit + n - 2, true))
      else Resync(d).(serCycles := 0, sFifoWrEn := false)
    else d.(serCycles := (d.serCycles + baud) % WORD, sFifoWrEn := false)
  }

  /** While synchronised, the bits still to come are exactly counted. */
  predicate SafeRun(d: Decoder) {
    match d.serStep
    case WaitFall => d.serBit == 0 && d.serMax == 9
    case LowRun => d.serBit <= 8 && d.serMax == 9 - d.serBit
    case HighRun => 1 <= d.serBit <= 9 && d.serMax == 10 - d.serBit
  }

  /** A run that has not timed out fits in the bits still to come. */
  lemma NotOver(rate: Rate, d: Decoder, n: nat)
    requires d.serStep.LowRun? && SafeRun(d) && !Over(rate, d.serMax, d.serCycles)
    requires n == Width(rate, d.serCycles) > 0
    ensures n <= d.serMax
  {
    if n > d.serMax {
      WindowsApart(rate, d.serMax, n);
    }
  }

  // ---------------------------------------------------------------------------------------
  // Any waveform: the bits decoded since the start edge.
  // ---------------------------------------------------------------------------------------

  ghost function Repeat(v: bool, n: nat): (r: seq<bool>)
    ensures |r| == n && forall k :: 0 <= k < n ==> r[k] == v
  {
    seq(n, _ => v)
  }

  /** The byte register holds the data bits among the bits decoded so far. */
  ghost predicate Spells(d: Decoder, bits: seq<bool>) {
    !d.serStep.WaitFall? ==>
      && |bits| == d.serBit
      && (|bits| > 0 ==> !bits[0])
      && forall m :: 0 <= m < d.serBit - 1 && m < 8 ==> d.sFifoByte[m] == bits[m + 1]
  }

  /** The bits decoded after one sample: a finished run appends its width in bits. */
  ghost function Decoded(rate: Rate, d: Decoder, bits: seq<bool>, sertfg: bool): seq<bool> {
    if d.serStep.WaitFall? then []
    else if d.serStep.LowRun? && sertfg then bits + Repeat(false, Width(rate, d.serCycles))
    else if d.serStep.HighRun? && !sertfg then bits + Repeat(true, Width(rate, d.serCycles))
    else bits
  }

  lemma LowSafe(rate: Rate, baud: nat, d: Decoder, bits: seq<bool>, sertfg: bool)
    requires d.serStep.LowRun? && SafeRun(d) && Spells(d, bits)
    ensures var v := LowCase(rate, baud, d, sertfg);
            && !v.sFifoWrEn
            && (v.serSync ==> SafeRun(v) && Spells(v, Decoded(rate, d, bits, sertfg)))
  {
    if !Over(rate, d.serMax, d.serCycles) && sertfg && Width(rate, d.serCycles) > 0 {
      NotOver(rate, d, Width(rate, d.serCycles));
    }
  }

  /** A byte is written exactly when the remaining bits are all ones: ten bits, start 0 and stop 1. */
  lemma HighSafe(rate: Rate, baud: nat, d: Decoder, bits: seq<bool>, sertfg: bool)
    requires d.serStep.HighRun? && SafeRun(d) && Spells(d, bits)
    ensures var v := HighCase(rate, baud, d, sertfg);
            && (v.serSync ==> SafeRun(v))
            && (v.serSync ==> Spells(v, Decoded(rate, d, bits, sertfg)))
            && (v.sFifoWrEn ==> WrittenByte(v.sFifoByte, bits))
  {
    hide WrittenByte, Width, CyclesM, CyclesP;
    if Complete(rate, d.serMax, d.serCycles) {
      FillByte(d, bits);
    }
  }

  lemma FillByte(d: Decoder, bits: seq<bool>)
    requires d.serStep.HighRun? && SafeRun(d) && Spells(d, bits)
    ensures WrittenByte(SetBits(d.sFifoByte, d.serBit - 1, 7, true), bits)
  {
    var f := Framed(SetBits(d.sFifoByte, d.serBit - 1, 7, true));
    var g := bits + Repeat(true, 10 - |bits|);
    hide SetBits;
    forall m | 0 <= m < 10
      ensures f[m] == g[m]
    {
      if 0 < m < 9 {
        assert f[m] == SetBits(d.sFifoByte, d.serBit - 1, 7, true)[m - 1];
      }
    }
  }

  /** The byte spelled by the decoded bits followed by ones up to ten bits. */
  ghost predicate WrittenByte(byte: Bits, bits: seq<bool>) {
    && 1 <= |bits| <= 9
    && Framed(byte) == bits + Repeat(true, 10 - |bits|)
  }

  // ---------------------------------------------------------------------------------------
  // The serialiser's waveform: where the decoder is at each tick.
  // ---------------------------------------------------------------------------------------

  /** The first bit of the run of equal bits that contains bit i. */
  ghost function RunStart(f: seq<bool>, i: nat): (j: nat)
    requires i < |f|
    ensures j <= i && forall m :: j <= m <= i ==> f[m] == f[i]
    ensures j == 0 || f[j - 1] != f[j]
  {
    if i == 0 || f[i - 1] != f[i] then i else RunStart(f, i - 1)
  }

  /** The run that contains bit i lasts to the stop bit. */
  ghost predicate Tail(f: seq<bool>, i: nat)
    requires |f| == 10 && i < 10
  {
    forall m :: i <= m < 10 ==> f[m]
  }

  ghost function Elapsed(rate: Rate, baud: nat, l: Line): nat
    requires baud > 0 && LineOk(rate, baud, l) && l.Sending?
  {
    RunCycles(rate, baud, l.bit - RunStart(Framed(l.byte), l.bit), l.tick)
  }

  /** The byte has already been written: its last run of ones has lasted long enough. */
  ghost predicate Written(rate: Rate, baud: nat, l: Line)
    requires baud > 0 && LineOk(rate, baud, l) && l.Sending?
  {
    var f := Framed(l.byte);
    var j := RunStart(f, l.bit);
    && Tail(f, l.bit) && j > 0
    && Elapsed(rate, baud, l) - baud > CyclesM(rate, 10 - j)
  }

  ghost predicate Tracks(rate: Rate, baud: nat, d: Decoder, l: Line)
    requires baud > 0
  {
    && LineOk(rate, baud, l)
    && d.serSync && d.sertfg1 == Level(l) && SafeRun(d)
    && if l.Idle? || Written(rate, baud, l) then d.serStep.WaitFall? && d.serCycles == 0
       else
         && d.serStep == (if Level(l) then HighRun else LowRun)
         && d.serBit == RunStart(Framed(l.byte), l.bit)
         && d.serCycles == Elapsed(rate, baud, l)
         && forall m :: 0 <= m < d.serBit - 1 ==> d.sFifoByte[m] == l.byte[m]
  }

  lemma NotTimedOut(rate: Rate, n: nat, k: nat, c: nat)
    requires 1 <= n <= k <= 9 && c < CyclesP(rate, n)
    ensures !Over(rate, k, c)
    ensures n < k ==> !Complete(rate, k, c)
  {
    if n < k {
      WindowsApart(rate, n, k);
    }
  }

  lemma TailAt(f: seq<bool>)
    requires |f| == 10 && f[9]
    ensures Tail(f, 9) && (f[8] ==> Tail(f, 8))
  {
  }

  /** How long a run has lasted when it does not reach the stop bit. */
  lemma RunBound(rate: Rate, baud: nat, l: Line, j: nat)
    requires BaudOk(rate, baud) && LineOk(rate, baud, l) && l.Sending? && !Tail(Framed(l.byte), l.bit)
    requires j == RunStart(Framed(l.byte), l.bit)
    ensures l.bit <= (if Level(l) then 7 else 8) && (Level(l) ==> j > 0)
    ensures Elapsed(rate, baud, l) < CyclesP(rate, l.bit - j + 1)
    ensures l.tick == LastTick(rate, baud) ==> Width(rate, Elapsed(rate, baud, l)) == l.bit - j + 1
  {
    var f := Framed(l.byte);
    TailAt(f);
    hide CyclesM, CyclesP, Hz, RunCycles, LastTick, Framed, Width, RunStart;
    RunFits(rate, baud, l.bit - j + 1, l.tick);
    if l.tick == LastTick(rate, baud) {
      WidthIs(rate, Elapsed(rate, baud, l), l.bit - j + 1);
    }
  }

  /** Idle samples, and the start edge. */
  lemma TrackIdle(rate: Rate, baud: nat, d: Decoder, l: Line)
    requires BaudOk(rate, baud) && Tracks(rate, baud, d, Idle) && LineNext(rate, baud, Idle, l)
    ensures Tracks(rate, baud, if l.Idle? then d else d.(sFifoByte := ZEROS, serStep := LowRun, sertfg1 := false), l)
  {
    if l.Sending? {
      RunTick(rate, baud, 0, 0);
      assert !Framed(l.byte)[0];
    }
  }

  /** The start of the run at the next bit. */
  lemma RunNext(f: seq<bool>, i: nat)
    requires i + 1 < |f|
    ensures RunStart(f, i + 1) == if f[i + 1] == f[i] then RunStart(f, i) else i + 1
  {
  }

  /** Elapsed time grows by one tick within a run. */
  lemma ElapsedNext(rate: Rate, baud: nat, l: Line, l': Line)
    requires baud > 0 && LineOk(rate, baud, l) && LineNext(rate, baud, l, l') && l.Sending? && l'.Sending?
    ensures LineOk(rate, baud, l')
    ensures var j := RunStart(Framed(l.byte), l.bit); var j' := RunStart(Framed(l'.byte), l'.bit);
            if Level(l) == Level(l') then j' == j && Elapsed(rate, baud, l') == Elapsed(rate, baud, l) + baud
            else j' == l.bit + 1 == l'.bit && Elapsed(rate, baud, l') == 0 && l.tick == LastTick(rate, baud)
  {
    hide Framed;
    var f := Framed(l.byte);
    var j := RunStart(f, l.bit);
    RunTick(rate, baud, l.bit - j, l.tick);
    RunTick(rate, baud, l.bit - j, 0);
    if l.bit < 9 {
      RunNext(f, l.bit);
    }
  }

  lemma NotTail(f: seq<bool>, i: nat, k: nat)
    requires |f| == 10 && i < 10 && !Tail(f, i) && f[i] && (k == i || k == i + 1) && k < 10
    ensures !Tail(f, k)
  {
  }

  lemma NothingElapsed(rate: Rate, baud: nat, l: Line)
    requires baud > 0 && LineOk(rate, baud, l) && l.Sending?
    requires Elapsed(rate, baud, l) == 0 || !Tail(Framed(l.byte), l.bit)
    ensures !Written(rate, baud, l)
  {
  }

  lemma GoesOn(rate: Rate, baud: nat, l: Line, l': Line)
    requires baud > 0 && LineNext(rate, baud, l, l') && l.Sending? && l.bit < 9
    ensures l'.Sending? && l'.byte == l.byte && (l'.bit == l.bit || l'.bit == l.bit + 1)
  {
  }

  /** A sample within a run of zeros. */
  lemma LowStays(rate: Rate, baud: nat, d: Decoder, l: Line, l': Line)
    requires BaudOk(rate, baud) && Tracks(rate, baud, d, l) && LineNext(rate, baud, l, l')
    requires l.Sending? && !Level(l) && !Level(l')
    ensures d.serStep.LowRun? && SafeRun(d)
    ensures var v := LowCase(rate, baud, d, Level(l')).(sertfg1 := Level(l')); Tracks(rate, baud, v, l') && !v.sFifoWrEn
  {
    hide Framed, RunStart, CyclesM, CyclesP, RunCycles, Width, LastTick;
    var f := Framed(l.byte);
    var j := RunStart(f, l.bit);
    assert !Tail(f, l.bit) && !Written(rate, baud, l);
    RunBound(rate, baud, l, j);
    NotTimedOut(rate, l.bit - j + 1, 9 - j, Elapsed(rate, baud, l));
    GoesOn(rate, baud, l, l');
    ElapsedNext(rate, baud, l, l');
    hide Elapsed, LineNext, SetBits, Complete, InWindow;
  }

  /** The rising edge after a run of zeros. */
  lemma LowEnds(rate: Rate, baud: nat, d: Decoder, l: Line, l': Line)
    requires BaudOk(rate, baud) && Tracks(rate, baud, d, l) && LineNext(rate, baud, l, l')
    requires l.Sending? && !Level(l) && Level(l')
    ensures d.serStep.LowRun? && SafeRun(d)
    ensures var v := LowCase(rate, baud, d, Level(l')).(sertfg1 := Level(l')); Tracks(rate, baud, v, l') && !v.sFifoWrEn
  {
    hide Framed, RunStart, CyclesM, CyclesP, RunCycles, Width, LastTick;
    var f := Framed(l.byte);
    var j := RunStart(f, l.bit);
    assert !Tail(f, l.bit) && !Written(rate, baud, l);
    RunBound(rate, baud, l, j);
    NotTimedOut(rate, l.bit - j + 1, 9 - j, Elapsed(rate, baud, l));
    GoesOn(rate, baud, l, l');
    ElapsedNext(rate, baud, l, l');
    hide Elapsed, LineNext, SetBits, Complete, InWindow;
  }

  /** A sample within a run of zeros, or its rising edge. */
  lemma TrackLow(rate: Rate, baud: nat, d: Decoder, l: Line, l': Line)
    requires BaudOk(rate, baud) && Tracks(rate, baud, d, l) && LineNext(rate, baud, l, l')
    requires l.Sending? && !Level(l)
    ensures d.serStep.LowRun? && SafeRun(d)
    ensures var v := LowCase(rate, baud, d, Level(l')).(sertfg1 := Level(l')); Tracks(rate, baud, v, l') && !v.sFifoWrEn
  {
    hide Tracks, LowCase, LineNext;
    if Level(l') {
      LowEnds(rate, baud, d, l, l');
    } else {
      LowStays(rate, baud, d, l, l');
    }
  }

  /** A sample within a run of ones that is not the end of the frame. */
  lemma HighStays(rate: Rate, baud: nat, d: Decoder, l: Line, l': Line)
    requires BaudOk(rate, baud) && Tracks(rate, baud, d, l) && LineNext(rate, baud, l, l')
    requires l.Sending? && Level(l) && !Tail(Framed(l.byte), l.bit) && Level(l')
    ensures d.serStep.HighRun? && SafeRun(d)
    ensures var v := HighCase(rate, baud, d, Level(l')).(sertfg1 := Level(l'));
            Tracks(rate, baud, v, l') && !v.sFifoWrEn
  {
    hide Framed, RunStart, CyclesM, CyclesP, RunCycles, Width, LastTick;
    var f := Framed(l.byte);
    var j := RunStart(f, l.bit);
    assert !Written(rate, baud, l);
    RunBound(rate, baud, l, j);
    NotTimedOut(rate, l.bit - j + 1, 10 - j, Elapsed(rate, baud, l));
    GoesOn(rate, baud, l, l');
    ElapsedNext(rate, baud, l, l');
    hide Elapsed, LineNext, SetBits, Over, InWindow, Tail, Written;
    NotTail(f, l.bit, l'.bit);
    NothingElapsed(rate, baud, l');
  }

  /** The falling edge after a run of ones. */
  lemma HighEnds(rate: Rate, baud: nat, d: Decoder, l: Line, l': Line)
    requires BaudOk(rate, baud) && Tracks(rate, baud, d, l) && LineNext(rate, baud, l, l')
    requires l.Sending? && Level(l) && !Tail(Framed(l.byte), l.bit) && !Level(l')
    ensures d.serStep.HighRun? && SafeRun(d)
    ensures var v := HighCase(rate, baud, d, Level(l')).(sertfg1 := Level(l'));
            Tracks(rate, baud, v, l') && !v.sFifoWrEn
  {
    hide Framed, RunStart, CyclesM, CyclesP, RunCycles, Width, LastTick;
    var f := Framed(l.byte);
    var j := RunStart(f, l.bit);
    assert !Written(rate, baud, l);
    RunBound(rate, baud, l, j);
    NotTimedOut(rate, l.bit - j + 1, 10 - j, Elapsed(rate, baud, l));
    GoesOn(rate, baud, l, l');
    ElapsedNext(rate, baud, l, l');
    hide Elapsed, LineNext, SetBits, Over, InWindow, Tail, Written;
    NothingElapsed(rate, baud, l');
  }

  /** A sample within a run of ones that is not the end of the frame, or its falling edge. */
  lemma TrackHigh(rate: Rate, baud: nat, d: Decoder, l: Line, l': Line)
    requires BaudOk(rate, baud) && Tracks(rate, baud, d, l) && LineNext(rate, baud, l, l')
    requires l.Sending? && Level(l) && !Tail(Framed(l.byte), l.bit)
    ensures d.serStep.HighRun? && SafeRun(d)
    ensures var v := HighCase(rate, baud, d, Level(l')).(sertfg1 := Level(l'));
            Tracks(rate, baud, v, l') && !v.sFifoWrEn
  {
    hide Tracks, HighCase, LineNext, Tail, Framed;
    if Level(l') {
      HighStays(rate, baud, d, l, l');
    } else {
      HighEnds(rate, baud, d, l, l');
    }
  }

  /** In the last run of ones, before the byte is written, the frame is not yet over. */
  lemma TailGoesOn(rate: Rate, baud: nat, l: Line, l': Line)
    requires BaudOk(rate, baud) && LineOk(rate, baud, l) && LineNext(rate, baud, l, l')
    requires l.Sending? && Tail(Framed(l.byte), l.bit) && !Written(rate, baud, l)
    ensures Level(l) && RunStart(Framed(l.byte), l.bit) > 0
    ensures l'.Sending? && l'.byte == l.byte && Level(l') && Tail(Framed(l.byte), l'.bit)
  {
    hide CyclesM, CyclesP, RunCycles, Width, LastTick, RunStart, Framed;
    var j := RunStart(Framed(l.byte), l.bit);
    if l.tick == LastTick(rate, baud) && l.bit == 9 {
      RunFits(rate, baud, 10 - j, l.tick);
    }
  }

  /** A sample of the last run of ones: the byte is written once, well before the frame ends. */
  lemma TrackTail(rate: Rate, baud: nat, d: Decoder, l: Line, l': Line)
    requires BaudOk(rate, baud) && Tracks(rate, baud, d, l) && LineNext(rate, baud, l, l')
    requires l.Sending? && Tail(Framed(l.byte), l.bit) && !Written(rate, baud, l)
    ensures d.serStep.HighRun? && SafeRun(d) && l'.Sending? && Level(l')
    ensures var v := HighCase(rate, baud, d, true).(sertfg1 := true);
            && Tracks(rate, baud, v, l')
            && v.sFifoWrEn == Written(rate, baud, l')
            && (v.sFifoWrEn ==> v.sFifoByte == l.byte)
  {
    hide Framed, RunStart, CyclesM, CyclesP, RunCycles, Width, LastTick, LineNext;
    TailGoesOn(rate, baud, l, l');
    ElapsedNext(rate, baud, l, l');
    TailMeans(l.byte, RunStart(Framed(l.byte), l.bit));
    hide Elapsed;
  }

  lemma TailMeans(byte: Bits, j: nat)
    requires 0 < j < 10 && Tail(Framed(byte), j)
    ensures forall m :: j - 1 <= m < 8 ==> byte[m]
  {
    forall m | j - 1 <= m < 8
      ensures byte[m]
    {
      assert Framed(byte)[m + 1];
    }
  }

  /** After the byte is written, the rest of the frame leaves the decoder waiting. */
  lemma TrackWritten(rate: Rate, baud: nat, d: Decoder, l: Line, l': Line)
    requires BaudOk(rate, baud) && Tracks(rate, baud, d, l) && LineNext(rate, baud, l, l')
    requires l.Sending? && Written(rate, baud, l)
    ensures d.serStep.WaitFall? && Level(l')
    ensures Tracks(rate, baud, d.(sertfg1 := true), l')
  {
    WrittenStays(rate, baud, l, l');
    hide Written;
  }

  lemma WrittenStays(rate: Rate, baud: nat, l: Line, l': Line)
    requires BaudOk(rate, baud) && LineOk(rate, baud, l) && LineNext(rate, baud, l, l')
    requires l.Sending? && Written(rate, baud, l)
    ensures LineOk(rate, baud, l') && Level(l) && Level(l')
    ensures l'.Sending? ==> l'.byte == l.byte && Written(rate, baud, l')
  {
    hide CyclesM, CyclesP, RunCycles, Width;
    if l'.Sending? {
      ElapsedNext(rate, baud, l, l');
    }
  }

  /** The byte on the line has been begun but not yet written. */
  ghost predicate Owed(rate: Rate, baud: nat, l: Line)
    requires baud > 0 && LineOk(rate, baud, l)
  {
    l.Sending? && !Written(rate, baud, l)
  }

  /** One synchronised sample of a proper line. */
  function Sample(rate: Rate, baud: nat, d: Decoder, sertfg: bool): Decoder
    requires SafeRun(d)
  {
    var v := match d.serStep
      case WaitFall =>
        if d.sertfg1 && !sertfg then d.(sFifoByte := ZEROS, serStep := LowRun, sFifoWrEn := false)
        else d.(sFifoWrEn := false)
      case LowRun => LowCase(rate, baud, d, sertfg)
      case HighRun => HighCase(rate, baud, d, sertfg);
    v.(sertfg1 := sertfg)
  }

  lemma SampleSafe(rate: Rate, baud: nat, d: Decoder, bits: seq<bool>, sertfg: bool)
    requires SafeRun(d) && Spells(d, bits)
    ensures var v := Sample(rate, baud, d, sertfg);
            && (v.serSync ==> SafeRun(v) && Spells(v, Decoded(rate, d, bits, sertfg)))
            && (v.sFifoWrEn ==> d.serStep.HighRun? && WrittenByte(v.sFifoByte, bits))
  {
    hide LowCase, HighCase, WrittenByte;
    if d.serStep.LowRun? {
      LowSafe(rate, baud, d, bits, sertfg);
    } else if d.serStep.HighRun? {
      HighSafe(rate, baud, d, bits, sertfg);
    }
  }

  /** A run of c counts lasted n bit times: it is off by less than 1/32 bit time for each bit and 1/32 more. */
  predicate Lasted(rate: Rate, c: nat, n: nat) {
    (31 * n - 1) * Hz(rate) < 32 * c < (33 * n + 1) * Hz(rate)
  }

  lemma WidthExact(rate: Rate, c: nat, n: nat)
    requires 1 <= n <= 9
    ensures Width(rate, c) == n <==> Lasted(rate, c, n)
  {
    if InWindow(rate, c, n) {
      WidthIs(rate, c, n);
    }
    assert 32 * CyclesM(rate, n) == (31 * n - 1) * Hz(rate) && 32 * CyclesP(rate, n) == (33 * n + 1) * Hz(rate);
  }

  /** What ends a run of zeros, on any line: too long a run loses synchronisation, and at the rising edge so does one
      that lasts no whole number of bits; otherwise its bits are counted. */
  lemma LowExact(rate: Rate, baud: nat, d: Decoder, sertfg: bool, n: nat)
    requires d.serSync && d.serStep.LowRun? && SafeRun(d) && 1 <= n <= 9
    ensures var v := Sample(rate, baud, d, sertfg);
            var over := d.serMax >= 1 && 32 * d.serCycles > (33 * d.serMax + 1) * Hz(rate);
            && (over ==> !v.serSync)
            && (!over && !sertfg ==> v.serSync && v.serStep.LowRun? && v.serBit == d.serBit)
            && (!over && sertfg ==>
                  && (Lasted(rate, d.serCycles, n) ==> v.serSync && v.serStep.HighRun? && v.serBit == d.serBit + n)
                  && (v.serSync ==> 1 <= v.serBit - d.serBit <= 9
                                    && Lasted(rate, d.serCycles, v.serBit - d.serBit)))
  {
    hide Lasted, Hz, Width, SetBits, CyclesP;
    WidthExact(rate, d.serCycles, n);
    if Width(rate, d.serCycles) > 0 {
      WidthExact(rate, d.serCycles, Width(rate, d.serCycles));
    }
    if d.serMax >= 1 {
      OverExact(rate, d.serMax, d.serCycles);
    }
  }

  lemma OverExact(rate: Rate, n: nat, c: nat)
    requires 1 <= n <= 9
    ensures Over(rate, n, c) <==> 32 * c > (33 * n + 1) * Hz(rate)
    ensures Complete(rate, n, c) <==> 32 * c > (31 * n - 1) * Hz(rate)
  {
    assert 32 * CyclesM(rate, n) == (31 * n - 1) * Hz(rate) && 32 * CyclesP(rate, n) == (33 * n + 1) * Hz(rate);
  }

  /** What ends a run of ones, on any line: one that lasts the rest of the byte and the stop bit completes it; at the
      falling edge a shorter one is counted if it lasts a whole number of bits that leaves a bit and the stop bit, and
      loses synchronisation otherwise. */
  lemma HighExact(rate: Rate, baud: nat, d: Decoder, sertfg: bool, n: nat)
    requires d.serSync && d.serStep.HighRun? && SafeRun(d) && 1 <= n <= 9
    ensures var v := Sample(rate, baud, d, sertfg);
            && (v.sFifoWrEn <==> 32 * d.serCycles > (31 * d.serMax - 1) * Hz(rate))
            && (v.sFifoWrEn ==> v.serSync && v.serStep.WaitFall?)
            && (!v.sFifoWrEn && sertfg ==> v.serSync && v.serStep.HighRun? && v.serBit == d.serBit)
            && (!v.sFifoWrEn && !sertfg ==>
                  && (Lasted(rate, d.serCycles, n) ==>
                        v.serSync == (n + 1 < d.serMax) && (v.serSync ==> v.serBit == d.serBit + n))
                  && (v.serSync ==> v.serStep.LowRun? && 1 <= v.serBit - d.serBit <= 9
                                    && Lasted(rate, d.serCycles, v.serBit - d.serBit)))
  {
    hide Lasted, Hz, Width, SetBits, CyclesM;
    WidthExact(rate, d.serCycles, n);
    if Width(rate, d.serCycles) > 0 {
      WidthExact(rate, d.serCycles, Width(rate, d.serCycles));
    }
    OverExact(rate, d.serMax, d.serCycles);
  }

  lemma SampleLoses(rate: Rate, baud: nat, d: Decoder, sertfg: bool)
    requires SafeRun(d) && d.serSync
    ensures var v := Sample(rate, baud, d, sertfg); !v.serSync ==> v.serCycles == 0
  {
    hide Over, Complete, Width, SetBits;
  }

  /** Gaining synchronisation. */
  lemma Fresh(d: Decoder, sertfg: bool)
    ensures var v := d.(serSync := true, serBit := 0, serMax := 9, serStep := WaitFall, serCycles := 0,
                        sertfg1 := sertfg, sFifoWrEn := false);
            SafeRun(v) && (forall bits :: Spells(v, bits))
  {
  }

  /** The decoder stays in step with the line, and writes the byte on it exactly once. */
  lemma SampleTracks(rate: Rate, baud: nat, d: Decoder, l: Line, l': Line)
    requires BaudOk(rate, baud) && Tracks(rate, baud, d, l) && LineNext(rate, baud, l, l')
    ensures SafeRun(d) && LineOk(rate, baud, l) && LineOk(rate, baud, l')
    ensures var v := Sample(rate, baud, d, Level(l'));
            && Tracks(rate, baud, v, l')
            && v.sFifoWrEn == (Owed(rate, baud, l) && !Owed(rate, baud, l'))
            && (v.sFifoWrEn ==> l.Sending? && v.sFifoByte == l.byte)
  {
    hide LowCase, HighCase, Written, Elapsed;
    if l.Idle? {
      TrackIdle(rate, baud, d, l');
      if l'.Sending? {
        FreshByte(rate, baud, l');
      }
    } else if Written(rate, baud, l) {
      TrackWritten(rate, baud, d, l, l');
    } else if !Level(l) {
      TrackLow(rate, baud, d, l, l');
      NotWritten(rate, baud, l, l');
    } else if Tail(Framed(l.byte), l.bit) {
      TrackTail(rate, baud, d, l, l');
    } else {
      TrackHigh(rate, baud, d, l, l');
      NotWritten(rate, baud, l, l');
    }
  }

  lemma FreshByte(rate: Rate, baud: nat, l: Line)
    requires baud > 0 && LineOk(rate, baud, l) && l.Sending? && l.bit == 0 && l.tick == 0
    ensures !Written(rate, baud, l)
  {
    assert !Framed(l.byte)[0];
  }

  lemma NotWritten(rate: Rate, baud: nat, l: Line, l': Line)
    requires baud > 0 && LineOk(rate, baud, l) && LineNext(rate, baud, l, l') && LineOk(rate, baud, l')
    requires l.Sending? && l.bit < 9 && !Tail(Framed(l.byte), l.bit)
    ensures l'.Sending? && !Written(rate, baud, l')
  {
    hide Framed;
    GoesOn(rate, baud, l, l');
    ElapsedNext(rate, baud, l, l');
    if Level(l) && Level(l') {
      NotTail(Framed(l.byte), l.bit, l'.bit);
    }
  }

  class CLinkRx {
    const rate: Rate
    const baud: nat
    var d: Decoder
    ghost var bits: seq<bool>
    ghost var line: Line

    ghost predicate Valid()
      reads this
    {
      d.serSync ==> SafeRun(d) && Spells(d, bits)
    }

    constructor (rate: Rate, baud: nat)
      ensures Valid() && this.rate == rate && this.baud == baud
      ensures d == DECODER_INIT && line == Idle
    {
      this.rate, this.baud, d, bits, line := rate, baud, DECODER_INIT, [], Idle;
    }

    /** One rxClk cycle. write is the byte pushed into the receive queue in this cycle; l is what the line
        means when it carries properly framed bytes. */
    method Step(sertfg: bool, linkStatus: bool, ghost l: Line) returns (write: Option<Bits>)
      requires Valid()
      modifies this
      ensures Valid()
      ensures line == l
      ensures write == if old(d).sFifoWrEn then Some(old(d).sFifoByte) else None
      ensures linkStatus && old(d).serSync ==>
                && d == Sample(rate, baud, old(d), sertfg)
                && bits == Decoded(rate, old(d), old(bits), sertfg)
      ensures d.sFifoWrEn ==> linkStatus && old(d).serSync && old(d).serStep.HighRun?
                                && WrittenByte(d.sFifoByte, old(bits))
      ensures !old(d).serSync && d.serSync ==> sertfg && linkStatus
                                                 && d.serStep.WaitFall? && d.serCycles == 0 && d.sertfg1
      ensures !old(d).serSync && linkStatus && sertfg ==>
                && d.serSync == (old(d).serCycles > CyclesM(rate, 9))
                && (!d.serSync ==> d.serCycles == (old(d).serCycles + baud) % WORD)
      ensures !linkStatus || (!old(d).serSync && !sertfg) || (old(d).serSync && !d.serSync) ==>
                !d.serSync && d.serCycles == 0
    {
      hide LowCase, HighCase, SafeRun, Spells, WrittenByte, Decoded, CyclesM;
      write := if d.sFifoWrEn then Some(d.sFifoByte) else None;
      ghost var next := bits;
      var v := d.(sertfg1 := sertfg);
      if !linkStatus {
        v := v.(serSync := false, serCycles := 0, sFifoWrEn := false);
      } else if !d.serSync {
        if !sertfg {
          v := v.(serCycles := 0);
        } else if d.serCycles > CyclesM(rate, 9) {
          Fresh(d, sertfg);
          v := v.(serSync := true, serBit := 0, serMax := 9, serStep := WaitFall, serCycles := 0);
        } else {
          v := v.(serCycles := (d.serCycles + baud) % WORD);
        }
        v := v.(sFifoWrEn := false);
      } else {
        SampleSafe(rate, baud, d, bits, sertfg);
        SampleLoses(rate, baud, d, sertfg);
        next := Decoded(rate, d, bits, sertfg);
        match d.serStep {
          case WaitFall =>
            if d.sertfg1 && !sertfg {
              v := v.(sFifoByte := ZEROS, serStep := LowRun);
            }
            v := v.(sFifoWrEn := false);
          case LowRun =>
            v := LowCase(rate, baud, d, sertfg).(sertfg1 := sertfg);
          case HighRun =>
            v := HighCase(rate, baud, d, sertfg).(sertfg1 := sertfg);
        }
      }
      d, bits, line := v, next, l;
    }
  }

  /** One sample of the line, and whether the link is up. */
  datatype Input = Input(sample: bool, link: bool)

  /** Whether the decoder is synchronised before sample n, if synced says so for the samples taken. */
  predicate Was(synced: seq<bool>, n: nat)
    requires n <= |synced|
  {
    n > 0 && synced[n - 1]
  }

  /** The ones in a row before sample n, with the link up and the decoder not synchronised. */
  function Ones(ins: seq<Input>, synced: seq<bool>, n: nat): nat
    requires n <= |ins| && n <= |synced|
  {
    if n == 0 || Was(synced, n - 1) || synced[n - 1] || ins[n - 1] != Input(true, true) then 0
    else Ones(ins, synced, n - 1) + 1
  }

  /** How synchronisation is gained: by a one after a row of ones of more than 139/16 bit times, as counted in 32 bits.
      Without a link there is none. */
  predicate Gains(rate: Rate, baud: nat, ins: seq<Input>, synced: seq<bool>, n: nat)
    requires n < |synced| <= |ins|
  {
    && (!ins[n].link ==> !synced[n])
    && (ins[n].link && !Was(synced, n) ==>
          (synced[n] <==> ins[n].sample && 16 * (Ones(ins, synced, n) * baud % 0x1_0000_0000) > 139 * Hz(rate)))
  }

  lemma {:induction false} OnesKept(ins: seq<Input>, synced: seq<bool>, s: bool, n: nat)
    requires n <= |synced| < |ins|
    ensures Ones(ins, synced + [s], n) == Ones(ins, synced, n)
  {
    if n == 0 {
    } else {
      OnesKept(ins, synced, s, n - 1);
    }
  }

  lemma GainsKept(rate: Rate, baud: nat, ins: seq<Input>, synced: seq<bool>, s: bool)
    requires |synced| < |ins| && forall i :: 0 <= i < |synced| ==> Gains(rate, baud, ins, synced, i)
    ensures forall i :: 0 <= i < |synced| ==> Gains(rate, baud, ins, synced + [s], i)
  {
    hide Hz, Ones;
    forall i | 0 <= i < |synced|
      ensures Gains(rate, baud, ins, synced + [s], i)
    {
      assert Gains(rate, baud, ins, synced, i);
      OnesKept(ins, synced, s, i);
    }
  }

  /** The counter goes on counting, or starts again. */
  lemma OnesNext(ins: seq<Input>, synced: seq<bool>, s: bool)
    requires |synced| < |ins|
    ensures var n := |synced|;
            Ones(ins, synced + [s], n + 1)
            == if Was(synced, n) || s || ins[n] != Input(true, true) then 0 else Ones(ins, synced, n) + 1
  {
    OnesKept(ins, synced, s, |synced|);
  }

  /** Samples before n that are counted are ones, with the link up. */
  lemma {:induction false} OnesAre(ins: seq<Input>, synced: seq<bool>, n: nat)
    requires n <= |ins| && n <= |synced|
    ensures Ones(ins, synced, n) <= n
    ensures forall j :: n - Ones(ins, synced, n) <= j < n ==> ins[j] == Input(true, true)
  {
    if n == 0 {
    } else {
      OnesAre(ins, synced, n - 1);
    }
  }

  lemma NextCount(k: nat, baud: nat)
    ensures (k * baud % WORD + baud) % WORD == (k + 1) * baud % WORD
  {
    var q, m := k * baud / WORD, k * baud % WORD;
    assert k * baud == q * WORD + m && (k + 1) * baud == q * WORD + (m + baud);
    Multiple(q, m + baud);
  }

  lemma Multiple(q: nat, m: nat)
    ensures (q * WORD + m) % WORD == m % WORD
  {
    var p, r := m / WORD, m % WORD;
    assert q * WORD + m == (q + p) * WORD + r;
  }

  /** Any samples and link states from reset. The decoder becomes synchronised exactly by a row of ones that is long
      enough. */
  method Listen(rate: Rate, baud: nat, ins: seq<Input>) returns (synced: seq<bool>, written: seq<Bits>)
    ensures |synced| == |ins| && forall n :: 0 <= n < |ins| ==> Gains(rate, baud, ins, synced, n)
    ensures forall n :: 0 <= n < |ins| && synced[n] && !Was(synced, n) ==> LongIdle(rate, baud, ins, n)
  {
    hide Hz, CyclesM, Ones, LongIdle;
    var rx := new CLinkRx(rate, baud);
    synced, written := [], [];
    NoOnes(ins);
    for n := 0 to |ins|
      invariant fresh(rx) && rx.Valid() && rx.rate == rate && rx.baud == baud && |synced| == n
      invariant Was(synced, n) == rx.d.serSync
      invariant !rx.d.serSync ==> rx.d.serCycles == Ones(ins, synced, n) * baud % WORD
      invariant forall i :: 0 <= i < n ==> Gains(rate, baud, ins, synced, i)
    {
      NextCount(Ones(ins, synced, n), baud);
      var write := rx.Step(ins[n].sample, ins[n].link, Idle);
      written := written + if write.Some? then [write.value] else [];
      GainsKept(rate, baud, ins, synced, rx.d.serSync);
      OnesKept(ins, synced, rx.d.serSync, n);
      OnesNext(ins, synced, rx.d.serSync);
      Threshold(rate, Ones(ins, synced, n) * baud % WORD);
      synced := synced + [rx.d.serSync];
    }
    forall n | 0 <= n < |ins| && synced[n] && !Was(synced, n)
      ensures LongIdle(rate, baud, ins, n)
    {
      OnesAre(ins, synced, n);
      assert Gains(rate, baud, ins, synced, n);
      Counted(rate, baud, ins, n, Ones(ins, synced, n));
    }
  }

  lemma NoOnes(ins: seq<Input>)
    ensures Ones(ins, [], 0) == 0
  {
  }

  lemma Threshold(rate: Rate, c: nat)
    ensures c > CyclesM(rate, 9) <==> 16 * c > 139 * Hz(rate)
  {
  }

  lemma Counted(rate: Rate, baud: nat, ins: seq<Input>, n: nat, k: nat)
    requires n < |ins| && k <= n && ins[n] == Input(true, true)
    requires forall j :: n - k <= j < n ==> ins[j] == Input(true, true)
    requires 16 * (k * baud % WORD) > 139 * Hz(rate)
    ensures LongIdle(rate, baud, ins, n)
  {
    hide Hz;
    assert IdleRow(ins, n, k);
    Smaller(k * baud);
  }

  lemma Smaller(n: nat)
    ensures n % WORD <= n
  {
  }

  /** Sample n and the k samples before it are ones with the link up, for some k worth more than 139/16 bit times. */
  ghost predicate LongIdle(rate: Rate, baud: nat, ins: seq<Input>, n: nat)
    requires n < |ins|
  {
    exists k: nat :: IdleRow(ins, n, k) && 16 * (k * baud) > 139 * Hz(rate)
  }

  predicate IdleRow(ins: seq<Input>, n: nat, k: nat)
    requires n < |ins|
  {
    k <= n && forall j :: n - k <= j <= n ==> ins[j] == Input(true, true)
  }
}

/** Serialiser, wire and decoder together. */
module SerialLink {
  import opened AxiStream
  import opened SerialTiming
  import opened SerialLine
  import T = SerialTx
  import opened SerialRx

  /** Consecutive ticks of one line. */
  ghost predicate Chain(rate: Rate, baud: nat, ls: seq<Line>)
    requires baud > 0
  {
    forall i :: 0 <= i < |ls| - 1 ==> LineNext(rate, baud, ls[i], ls[i + 1])
  }

  /** The bytes begun on a line. */
  ghost function Begun(ls: seq<Line>): seq<Bits> {
    if ls == [] then []
    else
      var l := ls[|ls| - 1];
      Begun(ls[..|ls| - 1]) + if Starts(l) then [l.byte] else []
  }

  lemma BegunPush(ls: seq<Line>, l: Line)
    ensures Begun(ls + [l]) == Begun(ls) + if Starts(l) then [l.byte] else []
  {
    assert (ls + [l])[..|ls|] == ls;
  }

  lemma {:induction false} BegunPrefix(ls: seq<Line>, n: nat)
    requires n <= |ls|
    ensures Begun(ls[..n]) <= Begun(ls)
    ensures (forall i :: n <= i < |ls| ==> ls[i].Idle?) ==> Begun(ls[..n]) == Begun(ls)
  {
    if n < |ls| {
      BegunPrefix(ls[..|ls| - 1], n);
      assert ls[..|ls| - 1][..n] == ls[..n];
    } else {
      assert ls[..n] == ls;
    }
  }

  /** The decoder has consumed line[..n] and written every byte begun there except the one it owes. */
  ghost predicate Written(rate: Rate, baud: nat, d: Decoder, line: seq<Line>, n: nat, written: seq<Bits>)
    requires baud > 0
  {
    && 0 < n <= |line|
    && Tracks(rate, baud, d, line[n - 1])
    && Begun(line[..n]) == written + if Owed(rate, baud, line[n - 1]) then [line[n - 1].byte] else []
  }

  lemma ReceiveTick(rate: Rate, baud: nat, d: Decoder, line: seq<Line>, n: nat, written: seq<Bits>)
    requires BaudOk(rate, baud) && Chain(rate, baud, line) && n < |line|
    requires Written(rate, baud, d, line, n, written)
    ensures SafeRun(d)
    ensures var v := Sample(rate, baud, d, Level(line[n]));
            Written(rate, baud, v, line, n + 1, written + if v.sFifoWrEn then [v.sFifoByte] else [])
  {
    hide Tracks, LineNext, Sample, SerialRx.Written;
    var l, l' := line[n - 1], line[n];
    assert LineNext(rate, baud, l, l');
    SampleTracks(rate, baud, d, l, l');
    assert line[..n + 1] == line[..n] + [l'];
    BegunPush(line[..n], l');
    NextOwed(rate, baud, l, l');
  }

  predicate Starts(l: Line) {
    l.Sending? && l.bit == 0 && l.tick == 0
  }

  /** The byte owed changes only when a new byte begins. */
  lemma NextOwed(rate: Rate, baud: nat, l: Line, l': Line)
    requires BaudOk(rate, baud) && LineOk(rate, baud, l) && LineNext(rate, baud, l, l') && LineOk(rate, baud, l')
    ensures Starts(l') ==> l.Idle? && Owed(rate, baud, l')
    ensures !Starts(l') && Owed(rate, baud, l') ==> Owed(rate, baud, l) && l.byte == l'.byte
  {
    if Starts(l') {
      FreshByte(rate, baud, l');
    }
    if l.Sending? && SerialRx.Written(rate, baud, l) {
      WrittenStays(rate, baud, l, l');
    }
    hide SerialRx.Written;
  }

  /** From reset, an idle line synchronises the decoder. */
  method Synchronise(rate: Rate, baud: nat) returns (rx: CLinkRx)
    requires BaudOk(rate, baud)
    ensures fresh(rx) && rx.Valid() && rx.rate == rate && rx.baud == baud
    ensures Tracks(rate, baud, rx.d, Idle) && !rx.d.sFifoWrEn
  {
    rx := new CLinkRx(rate, baud);
    while !rx.d.serSync
      invariant rx.Valid() && !rx.d.sFifoWrEn && rx.rate == rate && rx.baud == baud
      invariant if rx.d.serSync then Tracks(rate, baud, rx.d, Idle) else rx.d.serCycles <= CyclesM(rate, 9) + baud
      decreases !rx.d.serSync, CyclesM(rate, 9) + baud - rx.d.serCycles
    {
      var _ := rx.Step(true, true, Idle);
    }
  }

  /** The wire holds the samples of the line that the decoder has not yet seen. */
  ghost predicate OnWire(wire: seq<bool>, line: seq<Line>) {
    && |wire| + 1 < |line|
    && forall i :: 0 <= i < |wire| ==> wire[i] == Level(line[|line| - 1 - |wire| + i])
  }

  lemma WireTick(wire: seq<bool>, line: seq<Line>, l: Line)
    requires OnWire(wire, line)
    ensures var w := wire + [Level(line[|line| - 1])];
            && w[0] == Level(line[|line| - 1 - |wire|])
            && OnWire(w[1..], line + [l])
  {
    var w, next := wire + [Level(line[|line| - 1])], line + [l];
    hide Level;
    forall i | 0 <= i < |wire|
      ensures w[1..][i] == Level(next[|next| - 1 - |wire| + i])
    {
      assert w[1..][i] == w[i + 1] && next[|next| - 1 - |wire| + i] == line[|line| - |wire| + i];
    }
  }

  lemma ChainPush(rate: Rate, baud: nat, line: seq<Line>, l: Line)
    requires baud > 0 && Chain(rate, baud, line) && line != [] && LineNext(rate, baud, line[|line| - 1], l)
    ensures Chain(rate, baud, line + [l])
  {
  }

  lemma WrittenPush(rate: Rate, baud: nat, d: Decoder, line: seq<Line>, n: nat, written: seq<Bits>, l: Line)
    requires baud > 0 && Written(rate, baud, d, line, n, written)
    ensures Written(rate, baud, d, line + [l], n, written)
  {
    assert (line + [l])[..n] == line[..n];
  }

  lemma {:induction false} IdleBegun(line: seq<Line>)
    requires forall i :: 0 <= i < |line| ==> line[i].Idle?
    ensures Begun(line) == []
  {
    if line == [] {
    } else {
      IdleBegun(line[..|line| - 1]);
    }
  }

  /** What has been written is a prefix of what was begun, and all of it when the end of the line is idle. */
  lemma WrittenPrefix(rate: Rate, baud: nat, d: Decoder, line: seq<Line>, n: nat, written: seq<Bits>)
    requires baud > 0 && Written(rate, baud, d, line, n, written)
    ensures written <= Begun(line)
    ensures (forall i :: n - 1 <= i < |line| ==> line[i].Idle?) ==> written == Begun(line)
  {
    BegunPrefix(line, n);
  }

  /** The bytes pushed. */
  function Pushed(pushes: seq<Option<Bits>>): seq<Bits> {
    if pushes == [] then []
    else Pushed(pushes[..|pushes| - 1]) + Opt(pushes[|pushes| - 1])
  }

  function Opt(o: Option<Bits>): seq<Bits> {
    if o.Some? then [o.value] else []
  }

  lemma PushedPush(pushes: seq<Option<Bits>>, push: Option<Bits>)
    ensures Pushed(pushes + [push]) == Pushed(pushes) + Opt(push)
  {
    assert (pushes + [push])[..|pushes|] == pushes;
  }

  /** The byte the decoder is about to put into the receive queue. */
  function Due(d: Decoder): seq<Bits> {
    if d.sFifoWrEn then [d.sFifoByte] else []
  }

  /** The whole link after some pushes: line holds every tick of the line so far, the wire its last samples. */
  ghost predicate Linked(tx: T.CLinkTx, rx: CLinkRx, rate: Rate, baud: nat, delay: nat, wire: seq<bool>,
                         line: seq<Line>, pushes: seq<Option<Bits>>, received: seq<Bits>)
    reads tx, rx
  {
    && tx.Valid() && tx.rate == rate && tx.baud == baud && tx.pushed == Pushed(pushes)
    && rx.Valid() && rx.rate == rate && rx.baud == baud && rx.d.serSync
    && |line| > |wire| + 1 && |wire| == delay && line[|line| - 1] == tx.line && OnWire(wire, line)
    && Chain(rate, baud, line) && Begun(line) == tx.taken
    && Written(rate, baud, rx.d, line, |line| - 1 - delay, received + Due(rx.d))
  }

  /** The cycles from the start of a byte to the start of the next. */
  function FrameTime(rate: Rate, baud: nat): nat
    requires baud > 0
  {
    10 * (LastTick(rate, baud) + 1) + 1
  }

  /** The cycles until the line is idle, if no more bytes are pushed. */
  function LineLeft(rate: Rate, baud: nat, l: Line): int
    requires baud > 0
  {
    if l.Sending? then (10 - l.bit) * (LastTick(rate, baud) + 1) - l.tick else 0
  }

  function Left(rate: Rate, baud: nat, q: seq<Bits>, rdEn: bool, l: Line): int
    requires baud > 0
  {
    (|q| - if rdEn then 1 else 0) * FrameTime(rate, baud) + LineLeft(rate, baud, l)
  }

  /** Each cycle of the line brings it nearer to idle. */
  lemma Nearer(rate: Rate, baud: nat, l: Line, l': Line)
    requires BaudOk(rate, baud) && LineOk(rate, baud, l) && LineNext(rate, baud, l, l')
    ensures l.Sending? ==> LineLeft(rate, baud, l') == LineLeft(rate, baud, l) - 1
    ensures l.Idle? && l'.Sending? ==> LineLeft(rate, baud, l') == FrameTime(rate, baud) - 1
    ensures LineLeft(rate, baud, l) >= 0
  {
    hide Hz, LastTick;
    if l.Sending? {
      var n := LastTick(rate, baud) + 1;
      assert (10 - l.bit) * n == (9 - l.bit) * n + n;
      if l.bit == 9 {
      } else {
        assert (9 - l.bit) * n == (10 - (l.bit + 1)) * n;
        assert (9 - l.bit) * n >= n by { MulLe(1, 9 - l.bit, n); }
      }
    }
  }

  /** The sample that reaches the decoder. */
  lemma Sampled(rate: Rate, baud: nat, d: Decoder, delay: nat, wire: seq<bool>, line: seq<Line>, written: seq<Bits>)
    requires BaudOk(rate, baud) && Chain(rate, baud, line) && OnWire(wire, line) && |wire| == delay
    requires Written(rate, baud, d, line, |line| - 1 - delay, written)
    ensures SafeRun(d) && (wire + [Level(line[|line| - 1])])[0] == Level(line[|line| - 1 - delay])
  {
    hide Written, Chain, SafeRun, Level, BaudOk;
    ReceiveTick(rate, baud, d, line, |line| - 1 - delay, written);
    WireTick(wire, line, Idle);
  }

  /** The line after a cycle. */
  lemma LineMoved(rate: Rate, baud: nat, line: seq<Line>, l': Line)
    requires BaudOk(rate, baud) && line != [] && Chain(rate, baud, line) && LineNext(rate, baud, line[|line| - 1], l')
    ensures Chain(rate, baud, line + [l'])
    ensures Begun(line + [l']) == Begun(line) + if line[|line| - 1].Idle? && l'.Sending? then [l'.byte] else []
  {
    hide Chain, Level, Begun, Starts, LineNext;
    ChainPush(rate, baud, line, l');
    BegunPush(line, l');
    TakenStarts(rate, baud, line[|line| - 1], l');
  }

  /** The wire after a cycle. */
  lemma WireMoved(wire: seq<bool>, line: seq<Line>, l': Line)
    requires OnWire(wire, line) && line != []
    ensures OnWire((wire + [Level(line[|line| - 1])])[1..], line + [l'])
  {
    hide Level;
    WireTick(wire, line, l');
  }

  /** The decoder after a cycle. */
  lemma DecoderMoved(rate: Rate, baud: nat, d: Decoder, n: nat, line: seq<Line>, written: seq<Bits>, l': Line)
    requires baud > 0 && BaudOk(rate, baud) && Chain(rate, baud, line) && n < |line| && SafeRun(d)
    requires Written(rate, baud, d, line, n, written)
    ensures var v := Sample(rate, baud, d, Level(line[n]));
            v.serSync && Written(rate, baud, v, line + [l'], n + 1, written + Due(v))
  {
    hide Written, Chain, SafeRun, Level, Sample, BaudOk;
    var v := Sample(rate, baud, d, Level(line[n]));
    ReceiveTick(rate, baud, d, line, n, written);
    WrittenPush(rate, baud, v, line, n + 1, written + Due(v), l');
    StillSynchronised(rate, baud, v, line, n + 1, written + Due(v));
  }

  /** One cycle of the whole link. */
  method LinkClock(tx: T.CLinkTx, rx: CLinkRx, delay: nat, wire: seq<bool>, ghost line: seq<Line>,
                   ghost pushes: seq<Option<Bits>>, received: seq<Bits>, push: Option<Bits>)
    returns (wire': seq<bool>, ghost line': seq<Line>, received': seq<Bits>)
    requires Linked(tx, rx, tx.rate, tx.baud, delay, wire, line, pushes, received)
    modifies tx, rx
    ensures Linked(tx, rx, tx.rate, tx.baud, delay, wire', line', pushes + [push], received')
    ensures line' == line + [tx.line] && received' == received + Due(old(rx.d))
    ensures LineNext(tx.rate, tx.baud, old(tx.line), tx.line)
    ensures old(tx.line).Idle? ==> tx.line.Sending? == (old(tx.sFifo) != [])
    ensures old(tx.sFifoRdEn) ==> old(tx.line).Sending? && old(tx.sFifo) != []
    ensures tx.sFifo == (if old(tx.sFifoRdEn) then old(tx.sFifo)[1..] else old(tx.sFifo)) + Opt(push)
    ensures tx.sFifoRdEn == (old(tx.line).Idle? && old(tx.sFifo) != [])
  {
    hide Tracks, LineNext, Sample, SerialRx.Written, Written, Chain, OnWire, T.Shifting, Spells, SafeRun, Begun, Hz,
      Level, WrittenByte, Decoded, Framed, CyclesM, Starts, Pushed, BaudOk;
    ghost var rate, baud, l, d, taken := tx.rate, tx.baud, tx.line, rx.d, tx.taken;
    ghost var written := received + Due(d);
    T.Bits9(rate, baud, l, tx.serSend, tx.serBits, tx.sendBit, tx.serCycles, tx.sertc);
    Sampled(rate, baud, d, delay, wire, line, written);
    var sample := (wire + [tx.sertc])[0];
    wire' := (wire + [tx.sertc])[1..];
    var write := rx.Step(sample, true, line[|line| - 1 - delay]);
    received' := received + if write.Some? then [write.value] else [];
    tx.Step(push);
    PushedPush(pushes, push);
    LineMoved(rate, baud, line, tx.line);
    WireMoved(wire, line, tx.line);
    DecoderMoved(rate, baud, d, |line| - 1 - delay, line, written, tx.line);
    line' := line + [tx.line];
  }

  /** A cycle without a push takes one off the time left; a push adds the time of a frame. */
  lemma LeftNext(rate: Rate, baud: nat, q: seq<Bits>, rdEn: bool, l: Line, q': seq<Bits>, rdEn': bool, l': Line,
                 push: Option<Bits>)
    requires BaudOk(rate, baud) && LineOk(rate, baud, l) && LineNext(rate, baud, l, l')
    requires (rdEn ==> l.Sending? && q != []) && q' == (if rdEn then q[1..] else q) + Opt(push)
    requires rdEn' == (l.Idle? && q != []) && (l.Idle? ==> l'.Sending? == (q != []))
    ensures Left(rate, baud, q', rdEn', l')
            == Left(rate, baud, q, rdEn, l)
               + (if push.Some? then FrameTime(rate, baud) else 0) - (if l.Sending? || q != [] then 1 else 0)
  {
    hide LineOk, LineNext, LastTick, LineLeft, FrameTime, Hz;
    Nearer(rate, baud, l, l');
    var n, f := |q| - (if rdEn then 1 else 0), FrameTime(rate, baud);
    var n' := |q'| - (if rdEn' then 1 else 0);
    assert n' == n + (if push.Some? then 1 else 0) - (if l.Idle? && q != [] then 1 else 0);
    Times(n, f);
    Times(n - 1, f);
    IdleLeft(rate, baud, l);
    IdleLeft(rate, baud, l');
  }

  lemma IdleLeft(rate: Rate, baud: nat, l: Line)
    requires baud > 0
    ensures l.Idle? ==> LineLeft(rate, baud, l) == 0
  {
  }

  lemma Times(n: int, f: nat)
    ensures (n + 1) * f == n * f + f
  {
  }

  lemma NotNegative(rate: Rate, baud: nat, l: Line)
    requires baud > 0 && LineOk(rate, baud, l)
    ensures LineLeft(rate, baud, l) >= 0
  {
    hide LastTick;
    if l.Sending? {
      MulLe(1, 10 - l.bit, LastTick(rate, baud) + 1);
    }
  }

  /** The time left is never negative, and nothing is left only when line and queue are idle. */
  lemma LeftOver(rate: Rate, baud: nat, tx: T.CLinkTx)
    requires tx.Valid() && tx.rate == rate && tx.baud == baud
    ensures BaudOk(rate, baud) && LineOk(rate, baud, tx.line) && tx.serSend == tx.line.Sending?
    ensures Left(rate, baud, tx.sFifo, tx.sFifoRdEn, tx.line) >= 0
  {
    hide BaudOk, LastTick, FrameTime;
    T.QueueHead(tx.pushed, tx.taken, tx.sFifo, tx.sFifoRdEn, tx.line);
    NotNegative(rate, baud, tx.line);
  }

  /** One cycle of the whole link, and what is left to do after it. */
  method Tick(tx: T.CLinkTx, rx: CLinkRx, delay: nat, wire: seq<bool>, ghost line: seq<Line>,
              ghost pushes: seq<Option<Bits>>, received: seq<Bits>, push: Option<Bits>)
    returns (wire': seq<bool>, ghost line': seq<Line>, received': seq<Bits>)
    requires Linked(tx, rx, tx.rate, tx.baud, delay, wire, line, pushes, received)
    modifies tx, rx
    ensures Linked(tx, rx, tx.rate, tx.baud, delay, wire', line', pushes + [push], received')
    ensures line' == line + [tx.line] && received' == received + Due(old(rx.d))
    ensures tx.baud > 0
    ensures Left(tx.rate, tx.baud, tx.sFifo, tx.sFifoRdEn, tx.line)
            == Left(tx.rate, tx.baud, old(tx.sFifo), old(tx.sFifoRdEn), old(tx.line))
               + (if push.Some? then FrameTime(tx.rate, tx.baud) else 0)
               - (if old(tx.serSend) || old(tx.sFifo) != [] then 1 else 0)
    ensures !old(tx.serSend) && old(tx.sFifo) == [] && push.None? ==> !tx.serSend && tx.sFifo == []
  {
    hide Tracks, LineNext, Written, Chain, OnWire, T.Shifting, T.Queued, Spells, SafeRun, Begun, Left, FrameTime, Hz,
      LineOk, Due, Pushed;
    ghost var rate, baud, l, q, rd := tx.rate, tx.baud, tx.line, tx.sFifo, tx.sFifoRdEn;
    LeftOver(rate, baud, tx);
    wire', line', received' := LinkClock(tx, rx, delay, wire, line, pushes, received, push);
    LeftNext(rate, baud, q, rd, l, tx.sFifo, tx.sFifoRdEn, tx.line, push);
    LeftOver(rate, baud, tx);
  }

  /** A whole transfer over the link. Software pushes bytes at arbitrary times, the wire delays every sample by the same
      number of cycles, and the decoder first synchronises on the idle line. At the last push the bytes received are the
      first ones pushed; after a frame time for each byte, and the delay of the wire, they are exactly the bytes pushed,
      once each and in order. */
  method Transfer(rate: Rate, baud: nat, delay: nat, pushes: seq<Option<Bits>>)
    returns (early: seq<Bits>, received: seq<Bits>, cycles: nat)
    requires BaudOk(rate, baud)
    ensures early <= received == Pushed(pushes)
    ensures cycles <= |Pushed(pushes)| * FrameTime(rate, baud) + delay + 2
  {
    hide Tracks, LineNext, Written, Chain, OnWire, T.Shifting, T.Queued, Spells, SafeRun, Begun, Left, FrameTime, Hz,
      LineOk, Due, Pushed, Linked;
    var tx, rx, wire;
    ghost var line, all: seq<Option<Bits>>;
    tx, rx, wire, line := NewLink(rate, baud, delay);
    received, all := [], [];
    ghost var f := FrameTime(rate, baud);
    for t := 0 to |pushes|
      invariant fresh(tx) && fresh(rx) && tx.rate == rate && tx.baud == baud && all == pushes[..t]
      invariant Linked(tx, rx, rate, baud, delay, wire, line, all, received)
      invariant Left(rate, baud, tx.sFifo, tx.sFifoRdEn, tx.line) <= |Pushed(all)| * f
    {
      PushedPush(all, pushes[t]);
      Times(|Pushed(all)|, f);
      wire, line, received := Tick(tx, rx, delay, wire, line, all, received, pushes[t]);
      all := all + [pushes[t]];
    }
    assert pushes[..|pushes|] == pushes;
    early, cycles := received, 0;
    LinkFacts(tx, rx, delay, wire, line, all, received);
    while tx.serSend || tx.sFifo != []
      invariant fresh(tx) && fresh(rx) && tx.rate == rate && tx.baud == baud && Pushed(all) == Pushed(pushes)
      invariant Linked(tx, rx, rate, baud, delay, wire, line, all, received) && early <= received
      invariant 0 <= Left(rate, baud, tx.sFifo, tx.sFifoRdEn, tx.line) && baud > 0
      invariant cycles + Left(rate, baud, tx.sFifo, tx.sFifoRdEn, tx.line) <= |Pushed(pushes)| * f
      decreases Left(rate, baud, tx.sFifo, tx.sFifoRdEn, tx.line)
    {
      PushedPush(all, None);
      wire, line, received := Tick(tx, rx, delay, wire, line, all, received, None);
      all, cycles := all + [None], cycles + 1;
      LinkFacts(tx, rx, delay, wire, line, all, received);
    }
    LinkFacts(tx, rx, delay, wire, line, all, received);
    for k := 0 to delay + 2
      invariant fresh(tx) && fresh(rx) && tx.rate == rate && tx.baud == baud && Pushed(all) == Pushed(pushes)
      invariant Linked(tx, rx, rate, baud, delay, wire, line, all, received) && early <= received
      invariant !tx.serSend && tx.sFifo == [] && k < |line|
      invariant forall i :: |line| - 1 - k <= i < |line| ==> line[i].Idle?
      invariant k == delay + 2 ==> received == Pushed(pushes)
    {
      if k == delay + 1 {
        AllWritten(tx, rx, delay, wire, line, all, received);
      }
      PushedPush(all, None);
      wire, line, received := Tick(tx, rx, delay, wire, line, all, received, None);
      all := all + [None];
      LinkFacts(tx, rx, delay, wire, line, all, received);
    }
    cycles := cycles + delay + 2;
  }

  lemma LinkFacts(tx: T.CLinkTx, rx: CLinkRx, delay: nat, wire: seq<bool>, line: seq<Line>, pushes: seq<Option<Bits>>,
                  received: seq<Bits>)
    requires Linked(tx, rx, tx.rate, tx.baud, delay, wire, line, pushes, received)
    ensures line != [] && line[|line| - 1] == tx.line && tx.serSend == tx.line.Sending? && tx.baud > 0
    ensures Left(tx.rate, tx.baud, tx.sFifo, tx.sFifoRdEn, tx.line) >= 0
  {
    hide Tracks, LineNext, Written, Chain, OnWire, T.Shifting, T.Queued, Spells, SafeRun, Begun, Left, Hz, LineOk, Due,
      Pushed;
    LeftOver(tx.rate, tx.baud, tx);
  }

  /** When nothing is queued and the line has been idle for longer than the wire delays it, every byte is decoded. */
  lemma AllWritten(tx: T.CLinkTx, rx: CLinkRx, delay: nat, wire: seq<bool>, line: seq<Line>, pushes: seq<Option<Bits>>,
                   received: seq<Bits>)
    requires Linked(tx, rx, tx.rate, tx.baud, delay, wire, line, pushes, received) && tx.sFifo == []
    requires delay + 2 <= |line| && forall i :: |line| - 2 - delay <= i < |line| ==> line[i].Idle?
    ensures received + Due(rx.d) == Pushed(pushes)
  {
    hide Tracks, LineNext, Written, Chain, OnWire, T.Shifting, Spells, SafeRun, Begun, Hz, Due, Pushed;
    WrittenPrefix(tx.rate, tx.baud, rx.d, line, |line| - 1 - delay, received + Due(rx.d));
    T.QueueTaken(tx.pushed, tx.taken, tx.sFifo, tx.sFifoRdEn, tx.line);
  }

  lemma StillSynchronised(rate: Rate, baud: nat, d: Decoder, line: seq<Line>, n: nat, written: seq<Bits>)
    requires baud > 0 && Written(rate, baud, d, line, n, written)
    ensures d.serSync
  {
  }

  lemma TakenStarts(rate: Rate, baud: nat, l: Line, l': Line)
    requires BaudOk(rate, baud) && LineNext(rate, baud, l, l')
    ensures Starts(l') == (l.Idle? && l'.Sending?)
  {
  }

  lemma Start(rate: Rate, baud: nat, d: Decoder, delay: nat, wire: seq<bool>, line: seq<Line>)
    requires BaudOk(rate, baud) && Tracks(rate, baud, d, Idle)
    requires wire == seq(delay, _ => true) && line == seq(delay + 2, _ => Idle)
    ensures OnWire(wire, line) && Chain(rate, baud, line) && Begun(line) == []
    ensures Written(rate, baud, d, line, 1, [])
  {
    IdleBegun(line);
    IdleBegun(line[..1]);
  }

  /** A new link, with the decoder synchronised on the idle line. */
  method NewLink(rate: Rate, baud: nat, delay: nat)
    returns (tx: T.CLinkTx, rx: CLinkRx, wire: seq<bool>, ghost line: seq<Line>)
    requires BaudOk(rate, baud)
    ensures fresh(tx) && fresh(rx) && tx.rate == rate && tx.baud == baud
    ensures Linked(tx, rx, rate, baud, delay, wire, line, [], [])
    ensures Left(rate, baud, tx.sFifo, tx.sFifoRdEn, tx.line) == 0
  {
    hide Tracks, LineNext, SerialRx.Written, Written, Chain, OnWire, T.Shifting, Spells, SafeRun, Begun, Hz;
    tx := new T.CLinkTx(rate, baud);
    rx := Synchronise(rate, baud);
    wire, line := seq(delay, _ => true), seq(delay + 2, _ => Idle);
    Start(rate, baud, rx.d, delay, wire, line);
    StillSynchronised(rate, baud, rx.d, line, 1, []);
  }
}
