/** The stream types shared by the receive and transmit paths of the card. */
module AxiStream {

  datatype Option<+T> = None | Some(value: T)

  newtype byte = x: int | 0 <= x < 256

  /** One 32-bit word, least significant byte first. */
  datatype Dw = Dw(b0: byte, b1: byte, b2: byte, b3: byte)

  const ZERO_DW := Dw(0, 0, 0, 0)

  /** The four 32-bit lanes of a 128-bit beat. */
  type Lanes = s: seq<Dw> | |s| == 4 witness [ZERO_DW, ZERO_DW, ZERO_DW, ZERO_DW]

  /** Byte order of one lane on the PCIe side. */
  function Swap(d: Dw): Dw {
    Dw(d.b3, d.b2, d.b1, d.b0)
  }

  /** Byte order of all four lanes on the PCIe side. */
  function SwapLanes(l: Lanes): Lanes {
    [Swap(l[0]), Swap(l[1]), Swap(l[2]), Swap(l[3])]
  }

  /** A DMA address is a 30-bit index of 32-bit words. */
  const ADDR_SPACE := 0x4000_0000

  /** Word address arithmetic wraps at 30 bits. */
  function Wrap(x: nat): nat {
    x % ADDR_SPACE
  }

  lemma WrapAdd(x: nat, y: nat, k: nat)
    requires Wrap(x) == Wrap(y)
    ensures Wrap(x + k) == Wrap(y + k)
  {
  }

  lemma WrapTwice(x: nat)
    ensures Wrap(Wrap(x)) == Wrap(x)
  {
  }

  /** Longest write request, in words. */
  const MAX_RX_TRANS := 32

  /** A multiple of the longest write request. */
  predicate Aligned(n: int) {
    n % 32 == 0
  }

  lemma AlignedNext(n: int)
    requires Aligned(n)
    ensures Aligned(n + MAX_RX_TRANS)
  {
  }

  lemma AlignedBelow(a: int, b: int)
    requires Aligned(a) && Aligned(b) && a < b
    ensures a + MAX_RX_TRANS <= b
  {
  }

  /** Longest read request, in words. */
  const MAX_TX_TRANS := 256
}
