# Verified model of the PGP Gen3 card's data path

The card moves camera frames between serial links and host memory. This project models the clocked state machines
and the driver code that do so, cycle by cycle and call by call, and proves what they promise over whole runs.

Each VHDL entity is a class whose record `r` (or register fields) changes in one `Step` per clock edge; ghost histories
record what went in and out. The library FIFOs are ideal queues: when their oldest entry becomes visible is up to an
arbitrary schedule, and so are all ready, pause and acknowledge lines. The main theorems are methods that take an
arbitrary list of clock edges (or calls) and state what is true at the end; since every prefix of a run is a run, they
speak about every reachable state. Beside each hardware path's theorem stands one on progress: from wherever such a
run has got to, a stated number of further edges with every ready line up delivers all that is owed.

| File | What it covers | Main theorem |
|---|---|---|
| `RxTransFifo.dfy`, `RxPacker.dfy`, `RxDma.dfy`, `RxChannel.dfy` | packing 32-bit words into 128-bit beats and transactions; the receive DMA engine | `RxChannel.Receive`, `RxChannel.Deliver`, `RxBound.OneFrame` |
| `TxRequests.dfy`, `TxDma.dfy`, `TxChannel.dfy` | descriptor queue, memory requester, completion collector, and a host answering the reads | `TxChannel.Transmit`, `TxChannel.Deliver` |
| `PcieReceive.dfy` | realigner and completion demultiplexer | `PcieReceive.Receive`, `PcieReceive.Deliver` |
| `PcieSend.dfy` | packet arbiter | `Inbound.Merge`, `Inbound.Deliver` |
| `CameraLink.dfy` | serial port: serialiser and run-length decoder | `SerialLink.Transfer`, `SerialRx.Listen` |
| `BufferPlaces.dfy`, `DriverRing.dfy`, `Driver.dfy`, `DriverTx.dfy` | the driver's rings and free lists shared with the card and the interrupt | `DriverRx.Run`, `DriverTx.Run`, `BufferPlaces.TwoSpareSlots` |
| `Descriptors.dfy` | free-list grants, done polling, the two-word done read | `DonePolling.OnceExactlyIf`, `DonePolling.InTime`, `DoneReads.SpacingNeeded` |
| `TriggerTable.dfy`, `HeaderCheck.dfy`, `TriggerTrace.dfy`, `Trigger.dfy`, `TriggerVerdict.dfy` | trigger look-up table and header stamping | `Trigger.Run`, `Trigger.Deliver`, `TriggerVerdict.Determined`, `TriggerTable.TableNext` |
| `IntelHex.dfy` | Intel HEX reader and flash verification | `PromVerify.VerifyBootProm`, `McsReader.FileRoundTrip` |

Frames, packets and files have reference definitions that do not mention the machines: `RxFrames.Frames` cuts a word
stream at its marks, `RxMemory.Receive` is a PCIe completer that stores what write packets say, `TxReads.Slice` is what
memory holds, `TlpBeats.CoreAll` assembles packets from the core's beats, `McsReader.Contents` is what records describe.

## What the proofs found

- A receive frame whose length reaches the descriptor's bound is reported as a length error, even if it ends exactly at
  the bound, and is cut at the end of the request in which it does so (`RxBound.OneFrame`). If the bound is a multiple of
  32 words nothing is stored beyond it; for every other bound there is a frame of which the word at the bound is stored,
  and without any error in the report if the bound leaves remainder 1, because the count just after a header word is not
  compared with it (`RxBound.Overrun`, `RxDma.BoundExact`, `RxDma.HitWithin`). With a bound of 0 the first packet ends
  after its first word, whatever length its header announces (`RxDma.ZeroBound`).
- The card's length-error flag arrives in the field the driver calls `fifoError`; the driver's `lengthError` is set only
  by a too short user buffer (`DriverRx.DescFields`, `DriverRx.PgpDevice.ReadBegin`, `RxReports.Delivered`).
- A ring needs exactly two spare slots: with one, a report that overtakes the pointer advance collides
  (`BufferPlaces.TwoSpareSlots`).
- A transmit call for a lane above 7 takes a buffer out of circulation for good (`DriverTx.LostExactly`,
  `DriverTx.OneLost`).
- The driver's transmit size test is made in 32 bits: a request of 2^30 words or more that does not fit the buffer passes
  it if the low 30 bits of its size do. The card is never told more words than were copied (`DriverTx.SizeTest`).
- The third bit of the driver's transmit channel number is the card's continue flag (`TxDescWrites.DriverFields`).
- Each finished receive transfer is reported once only if the card has two lanes or more; with one lane it is reported
  twice (`DonePolling.OnceExactlyIf`). The transmit side has a guard that makes one lane enough.
- Done reads are exact only if a low read never comes in the cycle right after a high read
  (`DoneReads.SpacingNeeded`); the register controller leaves more cycles between two accesses.
- A run trigger in the very cycle in which an earlier run is accepted steals the accept
  (`TriggerTable.TableNext`, `TriggerTable.ClashHappens`).
- A wrong byte sum is always caught except in end-of-file records with data bytes, which are not part of the test
  (`HexRecords.SumChecked`, `HexRecords.EndIgnoresData`), and a file with an odd number of bytes is verified with its
  last byte in both halves of the last word (`PromVerify.VerifyBootProm`).

## Model

| member | source | states |
|---|---|---|
| `RxPacker.PciRxTransFifo.Step` | firmware/common/pci/rtl/PciRxTransFifo.vhd:100-262 | every cycle keeps the beats written equal to the packed form of the accepted words' transactions, each announced by one queue entry with its length, beat count, marks and damage |
| `RxPacker.TakeBeats` | firmware/common/pci/rtl/PciRxTransFifo.vhd:192-253 | a word placed in its lane, header or body, keeps the packed beats equal to the words, with the keep count of the last beat |
| `RxPacker.TakeChain` | firmware/common/pci/rtl/PciRxTransFifo.vhd:123-253 | transactions follow each other in the frame, non-final ones are exactly 32 words, and each entry describes its transaction |
| `RxDma.PciRxDma.Step` | firmware/common/pci/rtl/PciRxDma.vhd:148-440 | every cycle keeps the packets sent so far equal to the frame words received so far, stored byte-swapped from the descriptor's address on, and makes exactly the handshakes of its state |
| `RxDma.HdrKeeps` | firmware/common/pci/rtl/PciRxDma.vhd:224-327 | a write request is well formed (1 to 32 words, last byte enables zero exactly for one word, inside a 4 KB page for an aligned buffer) and stores its first word at the right address |
| `RxDma.CollectKeeps` | firmware/common/pci/rtl/PciRxDma.vhd:329-403 | a body beat stores its kept words, and the request ends exactly when its announced length is sent, with the error flag set exactly at the bound |
| `RxDma.HitWithin` | firmware/common/pci/rtl/PciRxDma.vhd:338-373 | within a request the error flag is raised exactly by the word that brings the count to the bound, unless that word is the header's |
| `RxDma.BoundExact` | firmware/common/pci/rtl/PciRxDma.vhd:280-401 | the length at which the comparisons stop a frame stays within the bound for all frame lengths exactly if the bound is a multiple of 32 words; `RxBound.OneFrame` shows that the engine stops there |
| `RxDma.ZeroBound` | firmware/common/pci/rtl/PciRxDma.vhd:264-327 | a frame's first header word raises the error exactly if the bound is 0; the packet then ends with it, and agrees with the length it announces exactly if that is 1 |
| `RxDma.LengthWraps` | firmware/common/pci/rtl/PciRxDma.vhd:280-373 | the length counts header and body words in 24 bits |
| `RxDma.InPage` | firmware/common/pci/rtl/PciRxDma.vhd:224-327 | a request of at most 32 words starting a multiple of 32 words into an aligned buffer crosses no 4 KB boundary, also where addresses wrap |
| `RxMemory.FlagsMean` | firmware/common/pci/rtl/PciRxDma.vhd:224-327 | what the two flags of the host's memory stand for: every packet was a memory write of 1 to 32 words with the byte enables its length demands; none crossed a 4 KB boundary |
| `RxChannel.NextTran` | firmware/common/pci/rtl/PciRxDma.vhd:208-222 | the entry at the head of the transaction queue describes the words the engine is about to send |
| `RxChannel.NextBeat` | firmware/common/pci/rtl/PciRxDma.vhd:224-403 | the beat at the head of the data queue holds exactly the words the engine expects next |
| `RxChannel.Told` | firmware/common/pci/rtl/PciRxDma.vhd:405-422 | each report names the frame sent to its descriptor, with the length the bound allows and the error exactly if its count has hit the bound; the packets store exactly the reported words and those of the frame in progress |
| `RxChannel.Receive` | firmware/common/pci/rtl/PciRxDma.vhd:163-422 | for any edge schedule and any positive bounds, up to the first length error: descriptors are those offered at the granting edges, in order; word k of each frame is stored at base + k with its four bytes in reverse order, once and in order; reports carry base, length, damage and error; every packet carries the lane's requester ID and tag; if registers and queues are empty, every frame is reported whole |
| `RxChannel.Deliver` | firmware/common/pci/rtl/PciRxDma.vhd:163-422 | from wherever a run has got to, at most five edges for each word taken in and four more, all ready, report every frame that has ended, whole, or a length error |
| `RxBound.OneFrame` | firmware/common/pci/rtl/PciRxDma.vhd:280-401 | a frame put into an idle lane is stored from its base on, byte 0 of each word where byte 3 was and so on, by packets with the lane's requester ID and tag, and reported with exactly the length its bound allows, the error flag exactly if its count hit the bound; a bound that is a multiple of 32 is never exceeded |
| `RxBound.Overrun` | firmware/common/pci/rtl/PciRxDma.vhd:338-401 | for every other bound there is a frame of which the word at base + bound is stored, reported without an error exactly if the bound leaves remainder 1 |
| `TxReads.ChunksPartition` | firmware/common/pci/rtl/PciTxDmaMemReq.vhd:142-207 | the requests of a descriptor read exactly its words in order, in pieces of 1 to 256, and from a 1 KB boundary on none crosses a 4 KB page |
| `TxMemReq.PciTxDmaMemReq.Step` | firmware/common/pci/rtl/PciTxDmaMemReq.vhd:93-264 | every cycle keeps the flow-control invariant, the requests sent plus those to go equal to the descriptors' requests, and a held request unchanged until taken |
| `TxMemReq.SizeKeeps` | firmware/common/pci/rtl/PciTxDmaMemReq.vhd:142-153 | the next request goes out exactly if the registered difference is below 128 words; though it may be stale, that bounds the words outstanding |
| `TxMemReq.SendKeeps` | firmware/common/pci/rtl/PciTxDmaMemReq.vhd:155-207 | a request goes out at the right address with the right length and byte enables, and leaves at most 383 words outstanding |
| `TxMemReq.WaitKeeps` | firmware/common/pci/rtl/PciTxDmaMemReq.vhd:209-243 | the delay state makes the registered difference recent before it is used, and the done strobe can arrive only here |
| `TxCompletions.CompletionPayload` | firmware/common/pci/rtl/PciTxDma.vhd:208-262 | the beats of a completion carry exactly its words, its first one above the header |
| `TxCompletions.Takes` | firmware/common/pci/rtl/PciTxDma.vhd:202-262 | the word picked by the index pointer and keep mask is the oldest word in flight, and the beat is released exactly when it is used up |
| `TxCollect.CollectWrites` | firmware/common/pci/rtl/PciTxDma.vhd:200-274 | a collected word is the next word of the descriptor, with the start mark on the first word of a frame and the end mark on the last word of an unchained descriptor |
| `TxCollect.PciTxDma.Step` | firmware/common/pci/rtl/PciTxDma.vhd:161-289 | every cycle keeps the written words equal to the descriptors' words so far and moves the remaining length as the requester assumes |
| `TxDescFifo.PciTxDescFifo.Step` | firmware/common/pci/rtl/PciTxDescFifo.vhd:68-150 | each request of the requester pops exactly one descriptor, the oldest, in the cycle of its acknowledge |
| `TxChannel.Clock` | firmware/common/pci/rtl/PciTxDma.vhd:110-289 | all parts of the lane together keep the invariant that ties queue, requests, words in flight and output |
| `TxChannel.Outstanding` | firmware/common/pci/rtl/PciTxDmaMemReq.vhd:114-153 | words requested and not yet written number between 0 and 383, counted over the whole history |
| `TxChannel.Transmit` | firmware/common/pci/rtl/PciTxDma.vhd:181-274 | for any schedule: descriptors are taken in order, requests are theirs and at most 383 words ahead, each with the requester ID and tag on the lines at an edge of its own; word k written is memory word addr + k with its four bytes in reverse order, with the marks, complete for each reported descriptor; if requester and queue are idle nothing is missing |
| `TxChannel.OneTag` | firmware/common/pci/rtl/PciTxDmaMemReq.vhd:155-177 | over every run: if the requester ID and the tag on the lines never change, all requests sent and the pending one carry them, and so their completions come back to the lane |
| `TxChannel.Deliver` | firmware/common/pci/rtl/PciTxDmaMemReq.vhd:117-243 | from wherever a run has got to, a stated number of edges with everything ready and the host answering word by word reads, writes and reports every descriptor |
| `TxDescWrites.WriteAll` | firmware/common/pci/rtl/PciTxDesc.vhd:88-112 | descriptors written as low and high word one after the other reach the queues of their lanes unmixed and in order |
| `TxDescWrites.DriverFields` | software/hw_devel/driver/PgpCardG3.c:155-159 | the lane works on the address, length, channel and continue flag the driver's two words encode, for every size, channel and lane number; the lane's low five bits stand above them |
| `Loopback.SentBack` | firmware/common/pci/rtl/PciTxDma.vhd:157-262 | a received frame, sent from the buffer it was stored in, goes out with the words it came in with |
| `Realigner.StraightKeeps` | firmware/common/pci/rtl/PciTlpCtrl.vhd:139-161 | an aligned beat passes with its packet; a straddling start ends the packet before it and is kept back |
| `Realigner.EndsHigh` | firmware/common/pci/rtl/PciTlpCtrl.vhd:163-217 | a shifted packet ending in the upper half of a beat needs one more beat, and loses no word |
| `Realigner.EndsLow` | firmware/common/pci/rtl/PciTlpCtrl.vhd:163-199 | a shifted packet ending in the lower half ends with this beat, also when another packet starts above it |
| `Realigner.PciTlpCtrl.Step` | firmware/common/pci/rtl/PciTlpCtrl.vhd:121-231 | for every legal beat the packets passed on plus the half beat kept back are the packets received; a beat is held until taken |
| `Outbound.LaneTag` | firmware/common/pci/rtl/PciTlpOutbound.vhd:84-130 | on the header's bytes: a packet is for lane i exactly if its type is 10 (completion), byte 1 of its third word is 2i+1 and the lane exists, and for the registers exactly if its type is 0 and it has one beat |
| `Outbound.ShareNext` | firmware/common/pci/rtl/PciTlpOutbound.vhd:111-163 | handing each beat to the target of its packet and to nobody else gives every output its packets and only those |
| `Outbound.PciTlpOutbound.Accept` | firmware/common/pci/rtl/PciTlpOutbound.vhd:109-163 | state and channel pointer agree with the packet in progress, also when the lane is busy at the first beat; no output register is overwritten |
| `PcieReceive.Receive` | firmware/common/pci/rtl/PciTlpCtrl.vhd:137-218 | for every legal stream and ready pattern lane i gets exactly the packets of type 10 whose tag byte is 2i+1, and the registers those of type 0 with at most four words, stated on the bytes of the packets, whole, in order, from word 0; nothing is missing if the realigner is quiet |
| `PcieReceive.LaneSorted` | firmware/common/pci/rtl/PciTlpOutbound.vhd:84-130 | over every list of packets: those the demultiplexer sends to lane i are those whose bytes make them completions with tag 2i+1 |
| `PcieReceive.RegisterSorted` | firmware/common/pci/rtl/PciTlpOutbound.vhd:84-130 | over every list of packets: those it sends to the registers are those whose bytes make them memory requests of one beat |
| `TlpBeats.Carries` | firmware/common/pci/rtl/PciTlpCtrl.vhd:121-231 | what legal beats can do: continue or end a packet with any number of words, also with the next packet's start above its last one or two words, or start one at word 0 or 2 |
| `PcieReceive.Deliver` | firmware/common/pci/rtl/PciTlpCtrl.vhd:137-218 | from wherever a run has got to, at most four cycles for each beat and three more, all ready, take in every beat and deliver every packet to its output |
| `Inbound.PciTlpInbound.Step` | firmware/common/pci/rtl/PciTlpInbound.vhd:83-190 | at most one source is accepted, by fixed priority at the polled lane, and a receive packet keeps the port until its last beat; the pending flag is up exactly if some source offers a beat |
| `Inbound.FairStep` | firmware/common/pci/rtl/PciTlpInbound.vhd:136-157 | the round-robin counter lets no receive lane start two packets while another lane waits |
| `Inbound.FairNext` | firmware/common/pci/rtl/PciTlpInbound.vhd:136-157 | over a run: between the beginnings of two packets of one lane there is an edge at which any other lane has nothing to send or is served |
| `Inbound.MergedWhole` | firmware/common/pci/rtl/PciTlpInbound.vhd:124-173 | with single-beat register and request packets every packet of the merged stream is in one piece |
| `Inbound.Merge` | firmware/common/pci/rtl/PciTlpInbound.vhd:104-173 | for every schedule the output is an interleaving of the sources that keeps each source's order and every packet whole; each edge serves a source with a valid beat or none, and no receive lane begins two packets while another one waits |
| `Inbound.Deliver` | firmware/common/pci/rtl/PciTlpInbound.vhd:104-173 | from wherever a run has got to, at most one edge for each lane and beat, all offered and ready, sends everything: every source's whole queue in order, every packet whole |
| `SerialTiming.WindowsApart` | firmware/common/clink/rtl/CLinkRx.vhd:122-139 | the nine tolerance windows are disjoint and increasing |
| `SerialTx.CLinkTx.Clock` | firmware/common/clink/rtl/CLinkTx.vhd:169-196 | the output is the framed byte, every bit for the same number of cycles, and a byte starts only on an idle line |
| `SerialTx.CLinkTx.Step` | firmware/common/clink/rtl/CLinkTx.vhd:140-196 | bytes pushed by software are sent in order, each once |
| `SerialRx.LowSafe` | firmware/common/clink/rtl/CLinkRx.vhd:472-590 | on any waveform a run of zeros keeps serMax = 9 - serBit, stays inside the byte register, and appends its width in bits |
| `SerialRx.HighSafe` | firmware/common/clink/rtl/CLinkRx.vhd:591-760 | on any waveform a run of ones keeps serMax = 10 - serBit, and a byte is written only when the decoded runs and the closing ones make ten bits from start 0 to stop 1 |
| `SerialRx.CLinkRx.Step` | firmware/common/clink/rtl/CLinkRx.vhd:442-766 | every sample keeps the decoder safe; bytes are written only while synchronised and are those spelled by the decoded runs; while not synchronised, a low sample or a link that is down restarts the count of ones, and a high sample adds one bit's share to it or, once 139/16 bit times are exceeded, synchronises |
| `SerialRx.Listen` | firmware/common/clink/rtl/CLinkRx.vhd:442-462 | for any samples and link states: the decoder becomes synchronised at a high sample exactly if the ones seen without a break, with the link up and since it last lost synchronisation, last more than 139/16 bit times; no zero lies among them |
| `SerialRx.LowExact` | firmware/common/clink/rtl/CLinkRx.vhd:472-590 | on any line, in a synchronised decoder, a run of zeros loses synchronisation if it lasts over 1/32 of a bit more than the bits left, or ends at no whole number of bits within that tolerance, and otherwise counts exactly that many bits |
| `SerialRx.HighExact` | firmware/common/clink/rtl/CLinkRx.vhd:591-760 | on any line a run of ones writes the byte exactly when it lasts the bits left within the tolerance; ended before, it is counted if it lasts a whole number of bits that leaves a bit and the stop bit, and loses synchronisation otherwise |
| `SerialRx.SampleTracks` | firmware/common/clink/rtl/CLinkRx.vhd:464-766 | on the serialiser's waveform the decoder stays in step with the line and writes the byte on it exactly once |
| `SerialLink.Synchronise` | firmware/common/clink/rtl/CLinkRx.vhd:449-462 | an idle line synchronises the decoder from reset |
| `SerialLink.Transfer` | firmware/common/clink/rtl/CLinkTx.vhd:175-194 | for every byte sequence pushed at any times, any delay and every baud rate of at least 55 cycles a bit: after a frame time for each byte and the delay the bytes received are exactly the bytes pushed, once each and in order; at the last push those received are the first ones pushed |
| `BufferPlaces.RunConserves` | software/hw_devel/driver/PgpCardG3.c:312-319 | over every run each buffer is in exactly one place, the one being handed back in two |
| `BufferPlaces.TwoSpareSlots` | software/hw_devel/driver/PgpCardG3.c:1013-1016 | a ring never collides, for all runs, exactly if it has two spare slots or more |
| `BufferPlaces.RunAtHome` | software/hw_devel/driver/PgpCardG3.c:1181-1193 | over every run a receive buffer stays in the lane it was first given to |
| `DriverRing.EmptyTest` | software/hw_devel/driver/PgpCardG3.c:239-244 | read == write exactly if the ring is empty, and otherwise the read slot holds the oldest buffer |
| `DriverRing.Enqueued` | software/hw_devel/driver/PgpCardG3.c:1013-1016 | the collision test is true exactly if no slot is free; otherwise the buffer is appended |
| `DriverRx.DescFields` | software/hw_devel/driver/PgpCardG3.c:976-1002 | the driver's shifts and masks recover every field of a report from its two words |
| `DriverRx.AnyWords` | software/hw_devel/driver/PgpCardG3.c:995-1002 | on any two words, unused bits set or not, each field of the record comes from its own bits |
| `DriverRx.PgpDevice.IrqRx` | software/hw_devel/driver/PgpCardG3.c:973-1031 | one pass moves the oldest report to the ring with its record filled in, or gives the buffer back to its lane if the device is closed; the collision test is true exactly if the advanced write pointer meets the read pointer |
| `DriverRx.PgpDevice.IrqHandler` | software/hw_devel/driver/PgpCardG3.c:967-1031 | the loop empties the done queue: all reports reach the ring in order, or all buffers their lanes |
| `DriverRx.PgpDevice.FindRx` | software/hw_devel/driver/PgpCardG3.c:986-989 | the linear search finds a buffer with the address, or there is none |
| `DriverRx.PgpDevice.ReadBegin` | software/hw_devel/driver/PgpCardG3.c:239-313 | a read returns the oldest report's fields and the shorter of length and user size, sets the length error exactly for a short user buffer, and gives the buffer back to its own lane |
| `DriverRx.PgpDevice.ReadEnd` | software/hw_devel/driver/PgpCardG3.c:318-321 | the read pointer advances past the buffer already handed back |
| `DriverRx.FreeLists` | software/hw_devel/driver/PgpCardG3.c:1181-1190 | the probe puts every buffer on the free list of lane index mod 8, once |
| `DriverRx.Run` | software/hw_devel/driver/PgpCardG3.c:239-319 | for any interleaving of reads, interrupts, open, release and card activity: the buffers are where the events put them, no pointer collision, no buffer lost or doubled, every buffer in lane index mod 8 |
| `DriverTx.PgpDevice.IrqTx` | software/hw_devel/driver/PgpCardG3.c:936-967 | one pass puts the oldest returned buffer at the end of the ring; the collision test is true exactly if the advanced write pointer meets the read pointer |
| `DriverTx.PgpDevice.IrqHandler` | software/hw_devel/driver/PgpCardG3.c:930-969 | the loop returns every finished buffer to the ring in order |
| `DriverTx.PgpDevice.WriteBegin` | software/hw_devel/driver/PgpCardG3.c:120-180 | a write is accepted exactly if its size in bytes, taken in 32 bits, is at most the buffer's; it then uses the oldest ring buffer and pushes its descriptor to the lane asked for, or to none if there is no such lane |
| `DriverTx.SizeTest` | software/hw_devel/driver/PgpCardG3.c:129-165 | a request longer than the buffer passes the size test exactly if it has 2^30 words or more and its low 30 bits pass; the length in the descriptor never exceeds the words copied |
| `DriverTx.PgpDevice.WriteEnd` | software/hw_devel/driver/PgpCardG3.c:182-184 | the read pointer advances past the buffer in use |
| `DriverTx.Run` | software/hw_devel/driver/PgpCardG3.c:83-187 | for any interleaving of writes, interrupts and card activity: the buffers are where the events put them, no collision, no buffer doubled, and as many out of circulation as writes to invalid lanes were accepted |
| `DriverTx.LostExactly` | software/hw_devel/driver/PgpCardG3.c:170-180 | over every run each accepted write to a lane above 7 takes one buffer out of circulation, and nothing else does |
| `DriverTx.OneLost` | software/hw_devel/driver/PgpCardG3.c:170-180 | one buffer and one write to lane 8: the buffer is gone |
| `FreeList.FreeLane.Step` | firmware/common/pci/rtl/PciRxDesc.vhd:166-198 | every cycle keeps the descriptors written equal to those granted, queued and being written, and the requests raised equal to the grants but for the pending one |
| `FreeList.Run` | firmware/common/pci/rtl/PciRxDesc.vhd:115-198 | over any run the addresses acknowledged are the descriptors written, in order, one for each time the request was raised, except a request still up |
| `FreeList.Answered` | firmware/common/pci/rtl/PciRxDesc.vhd:166-198 | a request that is up while a descriptor is there is granted the oldest one within three cycles in which the queue shows it |
| `DonePolling.PciDonePolling.Step` | firmware/common/pci/rtl/PciRxDesc.vhd:223-260 | every cycle of the receive side, and guarded of the transmit side, keeps every lane's reports acknowledged and written once, if guarded or with two lanes |
| `DonePolling.PollAll` | firmware/common/pci/rtl/PciTxDesc.vhd:137-170 | over any run the entries in the done queue from each lane are the reports it raised, once each and in order, except perhaps the last one |
| `DonePolling.InTime` | firmware/common/pci/rtl/PciRxDesc.vhd:228-260 | from any state of any run, n cycles with room in the done queue and no counter reset (2n with the guard) write every report raised so far |
| `DonePolling.Paused` | firmware/common/pci/rtl/PciRxDesc.vhd:228-260 | after any run, a cycle with the done queue almost full, or with the counter reset, polls no lane: it acknowledges nothing, writes no entry and does not move on |
| `DonePolling.RunKeeps` | firmware/common/pci/rtl/PciTxDesc.vhd:137-170 | whatever the stalls and counter resets, a lane's request is not polled while its acknowledge is up |
| `DonePolling.OnceExactlyIf` | firmware/common/pci/rtl/PciRxDesc.vhd:228-260 | every report is acknowledged and written exactly once in all runs, exactly if the polling is guarded or there are two lanes |
| `DonePolling.Doubled` | firmware/common/pci/rtl/PciRxDesc.vhd:228-260 | one unguarded lane: a concrete run that writes one report twice |
| `DoneReads.PciRxDescRead.Step` | firmware/common/pci/rtl/PciRxDesc.vhd:281-354 | every cycle whose low read does not meet the read strobe keeps the word held for the high read that of the oldest entry, and the pairs delivered those of the entries before it |
| `DoneReads.ReadAll` | firmware/common/pci/rtl/PciRxDesc.vhd:333-354 | over any run of spaced reads the pairs the driver collects are the words of the entries written, once each and in order |
| `DoneReads.Delivers` | firmware/common/pci/rtl/PciRxDesc.vhd:333-354 | after any spaced run, a low read of a visible entry and, any number of cycles later, a high read deliver exactly the oldest entry not yet delivered |
| `DoneReads.RunKeeps` | firmware/common/pci/rtl/PciRxDesc.vhd:333-354 | with spaced reads the pairs delivered are the entries written, in order, both words of a pair from one entry |
| `DoneReads.SpacingNeeded` | firmware/common/pci/rtl/PciRxDesc.vhd:333-354 | delivery is exact in all runs exactly if low reads keep two cycles from the high read before |
| `DoneReads.ReadTwice` | firmware/common/pci/rtl/PciRxDesc.vhd:333-354 | a low read in the next cycle delivers an entry twice |
| `RxReports.StatusWord` | firmware/common/pci/rtl/PciRxDma.vhd:415-422 | the first done word is the engine's status byte above the length |
| `RxReports.Delivered` | firmware/common/pci/rtl/PciRxDma.vhd:415-422 | from an engine report the driver records address, lane, channel, length, damage and bound error |
| `TriggerTable.RegsNext` | firmware/common/pgp/rtl/PgpOpCode.vhd:244-306 | the registers keep up with the history of runs, accepts and sync words |
| `TriggerTable.TableNext` | firmware/common/pgp/rtl/PgpOpCode.vhd:244-306 | every entry keeps agreeing with the latest run of its opcode and that run's accept, exactly if no run comes with the accept of an earlier one |
| `TriggerTable.ClashHappens` | firmware/common/pgp/rtl/PgpOpCode.vhd:259-286 | a concrete cycle in which the wrong run is marked accepted |
| `TriggerTable.EntryUnique` | firmware/common/pgp/rtl/PgpOpCode.vhd:244-306 | the history of runs and accepts leaves no choice of an opcode's entry |
| `TriggerTable.PgpOpCode.Step` | firmware/common/pgp/rtl/PgpOpCode.vhd:218-306 | the memory agrees with the history up to the cycle before |
| `HeaderCheck.RewrittenAt` | firmware/common/pgp/rtl/PgpVcRxBuffer.vhd:288-392 | an accepted frame keeps its length; word 0 is relabelled, words 2 to 4 are the entry, all later words are unchanged |
| `HeaderCheck.RelabelBits` | firmware/common/pgp/rtl/PgpVcRxBuffer.vhd:288-300 | relabelling changes bits 7..5 and 1..0 of the first word to lane and channel and nothing else |
| `HeaderCheck.CountBytes` | firmware/common/pgp/rtl/PgpVcRxBuffer.vhd:312-320 | the stamped count word is the count in 32 bits |
| `HeaderCheck.WaitKeeps` | firmware/common/pgp/rtl/PgpVcRxBuffer.vhd:262-271 | the wait is long enough for the entry of the frame's own opcode to reach the last register |
| `HeaderCheck.Waits` | firmware/common/pgp/rtl/PgpVcRxBuffer.vhd:243-271 | the table is read while exactly the two header words of the frame have been read |
| `HeaderCheck.JudgeKeeps` | firmware/common/pgp/rtl/PgpVcRxBuffer.vhd:273-286 | the frame is judged by that entry, and dropped if it is not accepted |
| `HeaderCheck.MoveKeeps` | firmware/common/pgp/rtl/PgpVcRxBuffer.vhd:312-392 | stamped and forwarded words are the share of the frame, damaged if it ends within words 2 to 4 |
| `HeaderCheck.PgpVcRxBuffer.Step` | firmware/common/pgp/rtl/PgpVcRxBuffer.vhd:170-415 | every cycle keeps the output equal to the shares of the frames, under any ready pattern, and counts in the drop counter exactly the frames dropped since its last reset, up to 255 |
| `Trigger.Run` | firmware/common/pgp/rtl/PgpVcRxBuffer.vhd:198-392 | for any interleaving of triggers and frames: an edge accepts one word that has been offered, or none; a frame is checked exactly if the check line is up at an edge at which its first word is seen; a checked frame of three words or more is judged by the entry of the opcode in bits 23..16 of its second word, which agrees with the triggers before the sixth receive edge after its two header words were accepted; it leaves stamped with that entry if it is accepted, and not at all otherwise; an unchecked frame leaves unchanged; while words remain, at most 12 n + 1 edges have had a word on offer and the output ready, n being the words accepted |
| `Trigger.Deliver` | firmware/common/pgp/rtl/PgpVcRxBuffer.vhd:198-392 | from wherever a run has got to, at most twelve edges for each word and eleven more, with the word offered and the output ready, get every word through, with the same said of every frame |
| `TriggerVerdict.Determined` | firmware/common/pgp/rtl/PgpVcRxBuffer.vhd:198-392 | words, edges and times of acceptance determine the output: two outputs that meet the contract of a run are equal, except while no more than a frame's header has been read |
| `TriggerVerdict.Settled` | firmware/common/pgp/rtl/PgpVcRxBuffer.vhd:262-286 | they determine for each frame whether it is checked, which entry judges it, and its share of the output |
| `TriggerVerdict.AllGated` | firmware/common/pgp/rtl/PgpVcRxBuffer.vhd:204-286 | with the check line up at all receive edges every complete frame of three words or more leaves stamped with an entry that agrees with the triggers, or not at all because that entry is not accepted, and a shorter one not at all |
| `TriggerVerdict.AllThrough` | firmware/common/pgp/rtl/PgpVcRxBuffer.vhd:209-220 | with the check line down at all receive edges the output is the words of the frames as they came |
| `HexRecords.RoundTrip` | software/hw_devel/app/McsRead.cpp:166-384 | reading a printed record gives the record back |
| `HexRecords.DigitValues` | software/hw_devel/app/McsRead.cpp:182-238 | the sixteen digits have the values 0 to 15 in upper and in lower case |
| `HexRecords.TailIgnored` | software/hw_devel/app/McsRead.cpp:182-238 | whatever follows the checksum on a line is ignored |
| `HexRecords.Rejected` | software/hw_devel/app/McsRead.cpp:240-377 | a line whose byte sum is not a multiple of 256 never gives a data or address record |
| `HexRecords.OneByteDetected` | software/hw_devel/app/McsRead.cpp:240-377 | changing any one byte but the count and the type of an accepted record makes it rejected |
| `HexRecords.EndIgnoresData` | software/hw_devel/app/McsRead.cpp:288-310 | an end-of-file record with any address and up to 16 data bytes is accepted if header and checksum add up, whatever the data bytes add up to |
| `HexRecords.RejectedUnless` | software/hw_devel/app/McsRead.cpp:215-377 | a line with a wrong byte sum is rejected exactly unless it is an end-of-file record with 1 to 16 data bytes whose header and checksum add up |
| `HexRecords.SumChecked` | software/hw_devel/app/McsRead.cpp:215-377 | for each type and count: all lines with a wrong byte sum are rejected exactly if the type is not end-of-file or the count is 0 or above 16 |
| `McsReader.McsRead.Line` | software/hw_devel/app/McsRead.cpp:182-384 | a line has exactly the effect of the record on it, or none and an error |
| `McsReader.McsRead.Read` | software/hw_devel/app/McsRead.cpp:114-163 | each call hands out the next byte of the file with its address, then the end mark or an error |
| `McsReader.FileRoundTrip` | software/hw_devel/app/McsRead.cpp:114-384 | a printed list of data and address records with an end record means exactly its bytes at base + offset + i |
| `McsReader.TailsIgnored` | software/hw_devel/app/McsRead.cpp:166-384 | a file means the same with carriage returns, or anything else, at the ends of its lines |
| `PromVerify.ReadAll` | software/hw_devel/app/McsRead.cpp:114-163 | reading until the end gives exactly the bytes the file means |
| `PromVerify.VerifyBootProm` | software/hw_devel/app/PgpCardG3Prom.cpp:215-270 | success exactly if the file is in order and every flash word equals its little-endian byte pair, a last single byte counting twice |
| `PromVerify.PrintedEven` | software/hw_devel/app/PgpCardG3Prom.cpp:230-270 | for a printed file with an even number of bytes: success exactly if every flash word equals its pair |

## Left out

- Continue mode of the receive engine (contEn = 1), and anything after the report of the first length error: the flag that would drop the rest of an overlong frame is never cleared by the packer.
- RxBound.Overrun: the bound 2^24 - 1 is left out, where the frame that exceeds it would wrap the 24-bit length.
- RxChannel.Receive: bounds are positive (see `RxDma.ZeroBound`); where a bound is never enforced, or lies within 32 words of 2^24, frames are taken to be shorter than 2^24 words, so that the wrap-around of the 24-bit length is not reached; the value the driver writes to the bound register is not modelled.
- SerialLink.Transfer: the link between serialiser and decoder is a constant delay of whole cycles; clock-domain jitter is not modelled.
- TxChannel.Deliver: the schedule after the run is one in which the host answers each read word by word.
- TxChannel.Transmit: the host delivers one completion at a time; lengths are positive, host memory does not change during a run, and completions of one lane arrive in the order of its requests.
- PcieReceive.Receive: the beats of the core are assumed legal (packets of three words or more, starting at word 0 or 2); BAR numbers are not carried.
- Inbound.Deliver: every receive lane's queue ends with the last beat of a packet; an open packet keeps the port until its last beat comes.
- DonePolling.PciDonePolling.Step: the done queue's almost-full flag is an arbitrary input; the queue itself never overflows.
- DoneReads.SpacingNeeded: the register controller that spaces the accesses is not part of this model, nor are the other registers of the block.
- Trigger.Run: the table is read in the receive clock as an ideal memory with one cycle of latency; delays and synchronisers in front of the trigger strobes are not modelled. A frame's words carry no second start mark: the buffer would pass it on like any other word, or begin a new frame with it if it is dropping the frame.
- HeaderCheck.PgpVcRxBuffer.Step: the destination field of the outgoing words and the FIFO's pause and overflow flags are left out.
- McsReader.McsRead.Line: lines have hexadecimal digits up to the checksum, whatever follows it; too short or malformed lines, and startAddr and endAddr, are left out.
- PromVerify.VerifyBootProm: the flash is a map from addresses to 16-bit words; flash commands, erase and buffered writes are left out.
- DriverRx.Run: one reader, one writer and the interrupt; the copy to user space, waiting, poll, mmap, ioctl and the status registers are left out.
- Library FIFOs, synchronisers, multiplexers and memories are ideal; clocks, resets, transceivers, the PCIe hard core and register address maps are hardware plumbing.
