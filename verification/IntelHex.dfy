/** Records of the Intel Hexadecimal Object File Format: printing them, and reading one line. */
module HexRecords {

  /** Data: a 16-bit offset and 1 to 16 bytes; Base: an extended linear address; End: end of file. */
  datatype Record = Data(addr: nat, bytes: seq<nat>) | Base(upper: nat) | End | Bad

  predicate IsHex(c: char) {
    '0' <= c <= '9' || 'A' <= c <= 'F' || 'a' <= c <= 'f'
  }

  function Digit(c: char): (n: nat)
    requires IsHex(c)
    ensures n < 16
  {
    if c <= '9' then c as int - '0' as int
    else if c <= 'F' then c as int - 'A' as int + 10
    else c as int - 'a' as int + 10
  }

  /** The digits in the order of their values. */
  const UPPER_CASE := "0123456789ABCDEF"
  const LOWER_CASE := "0123456789abcdef"

  /** Each digit has its place in the order as its value, in either case. */
  lemma DigitValues(n: nat)
    requires n < 16
    ensures IsHex(UPPER_CASE[n]) && Digit(UPPER_CASE[n]) == n
    ensures IsHex(LOWER_CASE[n]) && Digit(LOWER_CASE[n]) == n
  {
    UpperDigit(n);
    LowerDigit(n);
  }

  lemma UpperDigit(n: nat)
    requires n < 16
    ensures UPPER_CASE[n] == if n < 10 then '0' + n as char else 'A' + (n - 10) as char
  {
  }

  lemma LowerDigit(n: nat)
    requires n < 16
    ensures LOWER_CASE[n] == if n < 10 then '0' + n as char else 'a' + (n - 10) as char
  {
  }

  function Hex(n: nat): (c: char)
    requires n < 16
    ensures IsHex(c) && Digit(c) == n
  {
    if n < 10 then '0' + n as char else 'A' + (n - 10) as char
  }

  /** One byte as two digits. */
  function HexByte(b: nat): (s: string)
    requires b < 256
    ensures |s| == 2 && IsHex(s[0]) && IsHex(s[1]) && Digit(s[0]) * 16 + Digit(s[1]) == b
  {
    [Hex(b / 16), Hex(b % 16)]
  }

  predicate Bytes(bs: seq<nat>) {
    forall i :: 0 <= i < |bs| ==> bs[i] < 256
  }

  function Print(bs: seq<nat>): (s: string)
    requires Bytes(bs)
    ensures |s| == 2 * |bs|
  {
    if bs == [] then "" else Print(bs[..|bs| - 1]) + HexByte(bs[|bs| - 1])
  }

  function Sum(bs: seq<nat>): nat {
    if bs == [] then 0 else Sum(bs[..|bs| - 1]) + bs[|bs| - 1]
  }

  lemma SumPush(bs: seq<nat>, b: nat)
    ensures Sum(bs + [b]) == Sum(bs) + b
  {
    assert (bs + [b])[..|bs|] == bs;
  }

  lemma {:induction false} SumConcat(a: seq<nat>, b: seq<nat>)
    ensures Sum(a + b) == Sum(a) + Sum(b)
  {
    if b == [] {
      assert a + b == a;
    } else {
      var n := |b| - 1;
      SumConcat(a, b[..n]);
      assert a + b == (a + b[..n]) + [b[n]];
      SumPush(a + b[..n], b[n]);
    }
  }

  /** Two's complement of the sum. */
  function CheckSum(bs: seq<nat>): (c: nat)
    ensures c < 256 && (Sum(bs) + c) % 256 == 0
  {
    (256 - Sum(bs) % 256) % 256
  }

  predicate RecordOk(r: Record) {
    match r
    case Data(a, bs) => a < 0x1_0000 && 1 <= |bs| <= 16 && Bytes(bs)
    case Base(u) => u < 0x1_0000
    case End => true
    case Bad => false
  }

  /** The bytes of a record before the checksum: count, offset, type and data. */
  function Body(r: Record): (bs: seq<nat>)
    requires RecordOk(r)
    ensures Bytes(bs) && |bs| >= 4
  {
    match r
    case Data(a, bs) => [|bs|, a / 256, a % 256, 0] + bs
    case Base(u) => [2, 0, 0, 4, u / 256, u % 256]
    case End => [0, 0, 0, 1]
  }

  function PrintRecord(r: Record): string
    requires RecordOk(r)
  {
    ":" + Print(Body(r) + [CheckSum(Body(r))])
  }

  // ---------------------------------------------------------------------------------------
  // Reading
  // ---------------------------------------------------------------------------------------

  /** Byte k of a line, after the start code. */
  function ByteAt(line: string, k: nat): (b: nat)
    requires 2 * k + 2 < |line| && IsHex(line[2 * k + 1]) && IsHex(line[2 * k + 2])
    ensures b < 256
  {
    Digit(line[2 * k + 1]) * 16 + Digit(line[2 * k + 2])
  }

  /** The reader relies on hexadecimal digits up to and including the checksum; it does not look beyond. */
  predicate Readable(line: string) {
    && |line| > 0
    && (line[0] == ':' ==>
          && |line| >= 11 && IsHex(line[1]) && IsHex(line[2]) && |line| >= 11 + 2 * ByteAt(line, 0)
          && forall i :: 1 <= i < 11 + 2 * ByteAt(line, 0) ==> IsHex(line[i]))
  }

  function BytesAt(line: string, from: nat, n: nat): (bs: seq<nat>)
    requires 2 * (from + n) < |line| && forall i :: 1 <= i <= 2 * (from + n) ==> IsHex(line[i])
    ensures |bs| == n && forall k :: 0 <= k < n ==> bs[k] == ByteAt(line, from + k)
  {
    seq<nat>(n, k requires 0 <= k < n => ByteAt(line, from + k))
  }

  /** All bytes of a line, checksum included. */
  function LineBytes(line: string): (bs: seq<nat>)
    requires Readable(line) && line[0] == ':'
    ensures |bs| == ByteAt(line, 0) + 5 && forall k :: 0 <= k < |bs| ==> bs[k] == ByteAt(line, k)
  {
    BytesAt(line, 0, ByteAt(line, 0) + 5)
  }

  /** A byte sum that passes the check. */
  predicate Passes(sum: nat) {
    sum % 256 == 0
  }

  /** The record on a line, or Bad: what the reader accepts. An end-of-file record is judged without its data bytes. */
  function Decode(line: string): Record
    requires Readable(line)
  {
    if line[0] != ':' then Bad
    else
      var bs := LineBytes(line);
      var n := bs[0];
      if n > 16 then Bad
      else if bs[3] == 0 then
        if n == 0 || !Passes(Sum(bs)) then Bad else Data(bs[1] * 256 + bs[2], bs[4..4 + n])
      else if bs[3] == 1 then
        if !Passes(Sum(bs[..4]) + bs[4 + n]) then Bad else End
      else if bs[3] == 4 then
        if n != 2 || bs[1] != 0 || bs[2] != 0 || !Passes(Sum(bs)) then Bad else Base(bs[4] * 256 + bs[5])
      else Bad
  }

  /** Whatever follows the checksum, such as a carriage return, is ignored. */
  lemma TailIgnored(line: string, tail: string)
    requires Readable(line) && line[0] == ':'
    ensures Readable(line + tail) && Decode(line + tail) == Decode(line)
  {
    var long, n := line + tail, ByteAt(line, 0);
    assert forall i :: 0 <= i < |line| ==> long[i] == line[i];
    assert ByteAt(long, 0) == n;
    SameBytes(line, long);
    hide Sum, ByteAt, Readable;
  }

  lemma SameBytes(line: string, long: string)
    requires Readable(line) && Readable(long) && line <= long && line[0] == ':'
    ensures LineBytes(long) == LineBytes(line)
  {
    hide Digit;
    forall k | 0 <= k < ByteAt(line, 0) + 5
      ensures ByteAt(long, k) == ByteAt(line, k)
    {
    }
  }

  lemma {:induction false} PrintAt(bs: seq<nat>, k: nat)
    requires Bytes(bs) && k < |bs|
    ensures var s := Print(bs);
            IsHex(s[2 * k]) && IsHex(s[2 * k + 1]) && Digit(s[2 * k]) * 16 + Digit(s[2 * k + 1]) == bs[k]
  {
    hide HexByte;
    if k == |bs| - 1 {
    } else {
      PrintAt(bs[..|bs| - 1], k);
    }
  }

  lemma PrintIsHex(bs: seq<nat>)
    requires Bytes(bs)
    ensures forall i :: 0 <= i < |Print(bs)| ==> IsHex(Print(bs)[i])
  {
    forall i | 0 <= i < |Print(bs)|
      ensures IsHex(Print(bs)[i])
    {
      PrintAt(bs, i / 2);
    }
  }

  /** A printed line holds the bytes it was made of. */
  lemma PrintedBytes(bs: seq<nat>)
    requires Bytes(bs) && bs != [] && |bs| == bs[0] + 5
    ensures var line := ":" + Print(bs); Readable(line) && line[0] == ':' && LineBytes(line) == bs
  {
    hide Print;
    var line := ":" + Print(bs);
    PrintIsHex(bs);
    forall k | 0 <= k < |bs|
      ensures ByteAt(line, k) == bs[k]
    {
      PrintAt(bs, k);
    }
  }

  /** Reading undoes printing. */
  lemma RoundTrip(r: Record)
    requires RecordOk(r)
    ensures Readable(PrintRecord(r)) && Decode(PrintRecord(r)) == r
  {
    hide Print, CheckSum, Sum, LineBytes, Readable;
    var b := Body(r);
    var c := CheckSum(b);
    assert Bytes(b + [c]);
    PrintedBytes(b + [c]);
    SumPush(b, c);
    assert (b + [c])[..|b|] == b;
    assert r.Data? ==> (b + [c])[4..4 + |r.bytes|] == r.bytes;
    assert r.Data? ==> r.addr == r.addr / 256 * 256 + r.addr % 256;
    assert r.Base? ==> r.upper == r.upper / 256 * 256 + r.upper % 256;
  }

  /** A data or address record whose bytes do not add up to a multiple of 256 is rejected. */
  lemma Rejected(line: string)
    requires Readable(line) && line[0] == ':' && Sum(LineBytes(line)) % 256 != 0
    ensures !Decode(line).Data? && !Decode(line).Base?
    ensures ByteAt(line, 0) == 0 ==> Decode(line) == Bad
  {
    hide Sum, ByteAt;
    var bs := LineBytes(line);
    if bs[0] == 0 {
      assert bs == bs[..4] + [bs[4]];
      SumPush(bs[..4], bs[4]);
    }
  }

  lemma {:induction false} SumUpdate(bs: seq<nat>, k: nat, b: nat)
    requires k < |bs|
    ensures Sum(bs[k := b]) + bs[k] == Sum(bs) + b
  {
    var n := |bs| - 1;
    if k < n {
      SumUpdate(bs[..n], k, b);
      assert bs[k := b][..n] == bs[..n][k := b];
    } else {
      assert bs[k := b][..n] == bs[..n];
    }
  }

  lemma OffByOne(s: nat, t: nat, a: nat, b: nat)
    requires s % 256 == 0 && a < 256 && b < 256 && a != b && t + a == s + b
    ensures t % 256 != 0
  {
  }

  /** Changing any one byte of an accepted data or address record, other than its count and its type, makes it Bad. */
  lemma OneByteDetected(line: string, line': string, k: nat, b: nat)
    requires Readable(line) && line[0] == ':' && (Decode(line).Data? || Decode(line).Base?)
    requires Readable(line') && line'[0] == ':' && k < |LineBytes(line)| && k != 0 && k != 3
    requires LineBytes(line') == LineBytes(line)[k := b] && b != LineBytes(line)[k]
    ensures Decode(line') == Bad
  {
    hide Sum, ByteAt;
    var bs := LineBytes(line);
    SumUpdate(bs, k, b);
    assert b == LineBytes(line')[k] == ByteAt(line', k);
    OffByOne(Sum(bs), Sum(bs[k := b]), bs[k], b);
  }

  /** An end-of-file record is judged without its data bytes: they need not add up. */
  lemma EndIgnoresData(a0: nat, a1: nat, ds: seq<nat>)
    requires a0 < 256 && a1 < 256 && Bytes(ds) && |ds| <= 16
    ensures var line := EndLine(a0, a1, ds);
            && Readable(line) && line[0] == ':' && ByteAt(line, 0) == |ds| && ByteAt(line, 3) == 1
            && Decode(line) == End && Sum(LineBytes(line)) % 256 == Sum(ds) % 256
  {
    hide Print, ByteAt, CheckSum, Sum, Readable, LineBytes, Decode, Bytes, HexByte;
    var head := [|ds|, a0, a1, 1];
    HeadBytes(|ds|, a0, a1);
    var c := CheckSum(head);
    EndBytes(head, ds, c);
    var bs := head + ds + [c];
    PrintedBytes(bs);
    var line := ":" + Print(bs);
    assert line == EndLine(a0, a1, ds);
    FirstBytes(line);
    DecodeEnd(line, head, ds, c);
    AddMultiple(Sum(ds), Sum(head) + c);
  }

  lemma DecodeEnd(line: string, head: seq<nat>, ds: seq<nat>, c: nat)
    requires Readable(line) && line[0] == ':' && LineBytes(line) == head + ds + [c]
    requires |head| == 4 && head[0] == |ds| <= 16 && head[3] == 1 && Passes(Sum(head) + c)
    ensures Decode(line) == End
  {
    hide Readable, LineBytes, Sum, ByteAt;
    var bs := LineBytes(line);
    assert bs[..4] == head && bs[4 + |ds|] == c && bs[0] == head[0] && bs[3] == head[3];
  }

  lemma HeadBytes(n: nat, a0: nat, a1: nat)
    requires n < 256 && a0 < 256 && a1 < 256
    ensures Bytes([n, a0, a1, 1])
  {
  }

  lemma FirstBytes(line: string)
    requires Readable(line) && line[0] == ':'
    ensures ByteAt(line, 0) == LineBytes(line)[0] && ByteAt(line, 3) == LineBytes(line)[3]
  {
    hide ByteAt;
  }

  lemma EndBytes(head: seq<nat>, ds: seq<nat>, c: nat)
    requires |head| == 4 && head[0] == |ds| && Bytes(head) && Bytes(ds) && c < 256
    ensures var bs := head + ds + [c];
            && Bytes(bs) && |bs| == bs[0] + 5 && bs[..4] == head && bs[4 + |ds|] == c
            && Sum(bs) == Sum(ds) + (Sum(head) + c)
  {
    hide Sum;
    SumConcat(head, ds);
    SumPush(head + ds, c);
  }

  lemma AddMultiple(x: nat, m: nat)
    requires m % 256 == 0
    ensures (x + m) % 256 == x % 256
  {
  }

  /** An end-of-file record with data bytes ds, its checksum made without them. */
  function EndLine(a0: nat, a1: nat, ds: seq<nat>): string
    requires a0 < 256 && a1 < 256 && Bytes(ds) && |ds| <= 16
  {
    var head := [|ds|, a0, a1, 1];
    ":" + Print(head + ds + [CheckSum(head)])
  }

  /** A line with type byte t and count n whose bytes do not add up to a multiple of 256. */
  predicate Wrong(line: string, t: nat, n: nat) {
    && Readable(line) && line[0] == ':' && ByteAt(line, 0) == n && ByteAt(line, 3) == t
    && Sum(LineBytes(line)) % 256 != 0
  }

  /** A line whose bytes do not add up is rejected, unless it is an end-of-file record whose header and checksum
      alone do. */
  lemma RejectedUnless(line: string, t: nat, n: nat)
    requires Wrong(line, t, n)
    ensures Decode(line) == Bad <==>
              !(t == 1 && 1 <= n <= 16 && Passes(Sum(LineBytes(line)[..4]) + LineBytes(line)[4 + n]))
  {
    hide Sum, ByteAt;
    var bs := LineBytes(line);
    if n == 0 {
      assert bs == bs[..4] + [bs[4]];
      SumPush(bs[..4], bs[4]);
    }
  }

  /** The check catches every wrong sum exactly for the types and counts other than end-of-file records with data. */
  lemma SumChecked(t: nat, n: nat)
    requires t < 256 && n < 256
    ensures (forall line: string :: Wrong(line, t, n) ==> Decode(line) == Bad) <==> t != 1 || n == 0 || n > 16
  {
    hide Decode, EndLine, Sum, Readable, LineBytes, ByteAt;
    forall line: string | Wrong(line, t, n) && (t != 1 || n == 0 || n > 16)
      ensures Decode(line) == Bad
    {
      RejectedUnless(line, t, n);
    }
    if t == 1 && 1 <= n <= 16 {
      WrongEnd(n);
    }
  }

  /** An accepted end-of-file record with n data bytes that do not add up. */
  lemma WrongEnd(n: nat)
    requires 1 <= n <= 16
    ensures exists line: string :: Wrong(line, 1, n) && Decode(line) == End
  {
    hide Decode, EndLine, Readable, LineBytes, ByteAt;
    var zeros := seq(n - 1, _ => 0);
    var ds := [1] + zeros;
    EndIgnoresData(0, 0, ds);
    assert Sum([1]) == 1;
    SumConcat([1], zeros);
    SumZeros(n - 1);
    assert Wrong(EndLine(0, 0, ds), 1, n);
  }

  lemma {:induction false} SumZeros(n: nat)
    ensures Sum(seq(n, _ => 0)) == 0
  {
    if n == 0 {
    } else {
      SumZeros(n - 1);
      assert seq(n, _ => 0)[..n - 1] == seq(n - 1, _ => 0);
    }
  }
}

/** The reader class: it hands out the bytes of a file one by one, with their addresses. */
module McsReader {
  import opened HexRecords

  const ADDRESSES := 0x1_0000_0000

  function Addr32(a: nat): (r: nat)
    ensures r == a % 0x1_0000_0000 && (a < ADDRESSES ==> r == a)
  {
    a % ADDRESSES
  }

  /** One byte at its address. */
  datatype Cell = Cell(address: nat, data: nat)

  /** What is left of a file: its bytes, and whether an end-of-file record follows them (otherwise an error does). */
  datatype Stream = Stream(cells: seq<Cell>, ok: bool)

  /** Byte i of a record; addresses have 32 bits. */
  function Cells(base: nat, addr: nat, bytes: seq<nat>): (cs: seq<Cell>)
    ensures |cs| == |bytes|
    ensures forall i :: 0 <= i < |cs| ==> cs[i] == Cell((base + addr + i) % 0x1_0000_0000, bytes[i])
  {
    seq(|bytes|, i requires 0 <= i < |bytes| => Cell((base + addr + i) % 0x1_0000_0000, bytes[i]))
  }

  /** n consecutive addresses. */
  function Addresses(base: nat, addr: nat, n: nat): (s: seq<nat>)
    ensures |s| == n && forall i :: 0 <= i < n ==> s[i] == Addr32(base + addr + i)
  {
    seq<nat>(n, i requires 0 <= i < n => Addr32(base + addr + i))
  }

  /** The meaning of a file from some line on. */
  function Meaning(lines: seq<string>, base: nat): Stream
    requires forall i :: 0 <= i < |lines| ==> Readable(lines[i])
  {
    if lines == [] then Stream([], false)
    else
      match Decode(lines[0])
      case Bad => Stream([], false)
      case End => Stream([], true)
      case Base(u) => Meaning(lines[1..], u * 0x1_0000)
      case Data(a, bs) =>
        var s := Meaning(lines[1..], base);
        Stream(Cells(base, a, bs) + s.cells, s.ok)
  }

  predicate RecordsOk(rs: seq<Record>) {
    forall i :: 0 <= i < |rs| ==> RecordOk(rs[i]) && !rs[i].End?
  }

  function PrintFile(rs: seq<Record>): (lines: seq<string>)
    requires forall i :: 0 <= i < |rs| ==> RecordOk(rs[i])
    ensures |lines| == |rs| && forall i :: 0 <= i < |rs| ==> lines[i] == PrintRecord(rs[i])
  {
    seq(|rs|, i requires 0 <= i < |rs| => PrintRecord(rs[i]))
  }

  /** The bytes some records describe. */
  function Contents(rs: seq<Record>, base: nat): seq<Cell> {
    if rs == [] then []
    else
      match rs[0]
      case Base(u) => Contents(rs[1..], u * 0x1_0000)
      case Data(a, bs) => Cells(base, a, bs) + Contents(rs[1..], base)
      case _ => Contents(rs[1..], base)
  }

  lemma PrintedReadable(rs: seq<Record>)
    requires forall i :: 0 <= i < |rs| ==> RecordOk(rs[i])
    ensures forall i :: 0 <= i < |rs| ==> Readable(PrintFile(rs)[i])
  {
    hide Readable, PrintRecord, RecordOk;
    forall i | 0 <= i < |rs|
      ensures Readable(PrintFile(rs)[i])
    {
      RoundTrip(rs[i]);
    }
  }

  /** Printing a list of records and an end-of-file record gives a file with exactly their bytes. */
  lemma {:induction false} FileRoundTrip(rs: seq<Record>, base: nat)
    requires RecordsOk(rs)
    ensures (forall i :: 0 <= i < |rs| + 1 ==> RecordOk((rs + [End])[i]) && Readable(PrintFile(rs + [End])[i]))
            && Meaning(PrintFile(rs + [End]), base) == Stream(Contents(rs, base), true)
    decreases |rs|
  {
    hide Readable, PrintRecord, Cells, Decode;
    var all := rs + [End];
    assert forall i :: 0 <= i < |all| ==> RecordOk(all[i]);
    PrintedReadable(all);
    RoundTrip(all[0]);
    var lines := PrintFile(all);
    if rs == [] {
    } else {
      FileRoundTrip(rs[1..], if rs[0].Base? then rs[0].upper * 0x1_0000 else base);
      assert all[1..] == rs[1..] + [End];
      assert lines[1..] == PrintFile(rs[1..] + [End]);
    }
  }

  /** Every line of a file, with something after it. */
  function WithTails(lines: seq<string>, tails: seq<string>): (ls: seq<string>)
    requires |lines| == |tails|
    ensures |ls| == |lines| && forall i :: 0 <= i < |ls| ==> ls[i] == lines[i] + tails[i]
  {
    seq(|lines|, i requires 0 <= i < |lines| => lines[i] + tails[i])
  }

  /** Carriage returns, or anything else at the ends of the lines, do not change what a file means. */
  lemma {:induction false} TailsIgnored(lines: seq<string>, tails: seq<string>, base: nat)
    requires |lines| == |tails| && forall i :: 0 <= i < |lines| ==> Readable(lines[i]) && lines[i][0] == ':'
    ensures forall i :: 0 <= i < |lines| ==> Readable(WithTails(lines, tails)[i])
    ensures Meaning(WithTails(lines, tails), base) == Meaning(lines, base)
    decreases |lines|
  {
    hide Readable, Decode, Cells;
    forall i | 0 <= i < |lines|
      ensures Readable(lines[i] + tails[i]) && Decode(lines[i] + tails[i]) == Decode(lines[i])
    {
      TailIgnored(lines[i], tails[i]);
    }
    if lines == [] {
    } else {
      TailsIgnored(lines[1..], tails[1..], match Decode(lines[0]) case Base(u) => u * 0x1_0000 case _ => base);
      assert WithTails(lines, tails)[1..] == WithTails(lines[1..], tails[1..]);
    }
  }

  function Zip(addrs: seq<nat>, bytes: seq<nat>): (cs: seq<Cell>)
    requires |addrs| == |bytes|
    ensures |cs| == |addrs| && forall i :: 0 <= i < |cs| ==> cs[i] == Cell(addrs[i], bytes[i])
  {
    seq(|addrs|, i requires 0 <= i < |addrs| => Cell(addrs[i], bytes[i]))
  }

  lemma ZipTail(addrs: seq<nat>, bytes: seq<nat>)
    requires |addrs| == |bytes| > 0
    ensures Zip(addrs, bytes) == [Cell(addrs[0], bytes[0])] + Zip(addrs[1..], bytes[1..])
  {
  }

  datatype McsReadData = McsReadData(address: nat, data: nat, endOfFile: bool)

  class McsRead {
    const file: seq<string>
    var pos: nat                       // lines already read
    var promPntr: nat
    var promBaseAddr: nat
    var promLastAddr: nat
    const promData: array<nat>
    const promAddr: array<nat>
    var endOfFile: bool

    ghost predicate Valid()
      reads this, promData, promAddr
    {
      && promData.Length == promAddr.Length == 16 && promData != promAddr && promPntr <= 16
      && pos <= |file| && forall i :: 0 <= i < |file| ==> Readable(file[i])
    }

    /** The bytes collected and not yet handed out. */
    ghost function Pending(): (cs: seq<Cell>)
      requires Valid()
      reads this, promData, promAddr
      ensures |cs| == 16 - promPntr
    {
      Zip(promAddr[promPntr..], promData[promPntr..])
    }

    /** Everything still to be handed out. */
    ghost function Todo(): Stream
      requires Valid()
      reads this, promData, promAddr
    {
      var rest := if endOfFile then Stream([], true) else Meaning(file[pos..], promBaseAddr);
      Stream(Pending() + rest.cells, rest.ok)
    }

    constructor (file: seq<string>)
      requires forall i :: 0 <= i < |file| ==> Readable(file[i])
      ensures Valid() && this.file == file && fresh(promData) && fresh(promAddr)
      ensures Todo() == Meaning(file, 0) && !endOfFile
    {
      this.file := file;
      pos, promPntr, promBaseAddr, promLastAddr, endOfFile := 0, 16, 0, 0, false;
      promData := new nat[16](_ => 0);
      promAddr := new nat[16](_ => 0);
      new;
      assert file[0..] == file;
    }

    /** The next line, when everything collected has been handed out. */
    method Next() returns (status: int)
      requires Valid() && promPntr == 16 && !endOfFile
      modifies this, promData, promAddr
      ensures Valid()
      ensures status == -1 ==> old(Todo()) == Stream([], false)
      ensures status != -1 ==> status in {0, 1, 4} && Todo() == old(Todo()) && pos == old(pos) + 1
      ensures status == 0 ==> promPntr < 16
      ensures status == 4 || status == 1 ==> promPntr == 16
      ensures endOfFile <==> status == 1
    {
      hide Readable, Decode, Sum, ByteAt, LineBytes, Addr32;
      if pos == |file| {
        assert file[pos..] == [];
        return -1;
      }
      ghost var r := Decode(file[pos]);
      ghost var rest := file[pos..];
      assert rest[0] == file[pos] && rest[1..] == file[pos + 1..];
      var line := file[pos];
      pos := pos + 1;
      status := Line(line);
      if status == 0 {
        assert Pending() == Cells(promBaseAddr, r.addr, r.bytes);
      } else if status > 0 {
        assert Pending() == [];
      }
    }

    /** What a line does to the reader. */
    method Line(line: string) returns (status: int)
      requires Valid() && Readable(line) && promPntr == 16 && !endOfFile
      modifies this`promPntr, this`promBaseAddr, this`promLastAddr, this`endOfFile, promData, promAddr
      ensures Valid()
      ensures match Decode(line)
              case Bad => status == -1 && !endOfFile
              case End => status == 1 && endOfFile && promPntr == 16
              case Base(u) => status == 4 && !endOfFile && promPntr == 16 && promBaseAddr == u * 0x1_0000
              case Data(a, bs) =>
                && status == 0 && !endOfFile && promPntr == 16 - |bs| < 16 && promBaseAddr == old(promBaseAddr)
                && promLastAddr == Addr32(promBaseAddr + a + |bs| - 1)
                && promData[promPntr..] == bs && promAddr[promPntr..] == Addresses(promBaseAddr, a, |bs|)
    {
      hide Readable, Sum, Passes, ByteAt, Addr32, Addresses;
      if !StartsRecord(line) {
        return -1;
      }
      var bs := LineBytes(line);
      var byteCnt, addr, recordType := bs[0], bs[1] * 256 + bs[2], bs[3];
      var checkSum := bs[4 + byteCnt];
      if byteCnt > 16 {
        return -1;
      }
      SumParts(bs, byteCnt);
      var summing := bs[0] + bs[1] + bs[2] + bs[3];
      if recordType == 0 {
        if byteCnt == 0 {
          return -1;
        }
        var total := Collect(bs, byteCnt, summing);
        if !Passes(total + checkSum) {
          return -1;
        }
        Save(promBaseAddr, addr, bs[4..4 + byteCnt]);
        status := 0;
      } else if recordType == 1 {
        if !Passes(summing + checkSum) {
          return -1;
        }
        endOfFile := true;
        status := 1;
      } else if recordType == 4 {
        if byteCnt != 2 || addr != 0 {
          return -1;
        }
        var total := Collect(bs, byteCnt, summing);
        if !Passes(total + checkSum) {
          return -1;
        }
        promBaseAddr := (bs[4] * 256 + bs[5]) * 0x1_0000;
        status := 4;
      } else {
        status := -1;
      }
    }

    /** Add up the data bytes. */
    static method Collect(bs: seq<nat>, byteCnt: nat, start: nat) returns (total: nat)
      requires |bs| == byteCnt + 5
      ensures total == start + Sum(bs[4..4 + byteCnt])
    {
      total := start;
      for i := 0 to byteCnt
        invariant total == start + Sum(bs[4..4 + i])
      {
        assert bs[4..4 + i + 1] == bs[4..4 + i] + [bs[4 + i]];
        SumPush(bs[4..4 + i], bs[4 + i]);
        total := total + bs[4 + i];
      }
    }

    /** Save the bytes at the end of the buffer, whatever their number. */
    method Save(base: nat, addr: nat, bytes: seq<nat>)
      requires promData.Length == promAddr.Length == 16 && promData != promAddr && 1 <= |bytes| <= 16
      modifies this`promPntr, this`promLastAddr, promData, promAddr
      ensures promPntr == 16 - |bytes| && promLastAddr == Addr32(base + addr + |bytes| - 1)
      ensures promData[promPntr..] == bytes && promAddr[promPntr..] == Addresses(base, addr, |bytes|)
    {
      hide Addr32;
      var p := 16 - |bytes|;
      promPntr := p;
      for i := 0 to |bytes|
        invariant promPntr == p && (i > 0 ==> promLastAddr == Addr32(base + addr + i - 1))
        invariant forall k :: p <= k < p + i ==> promData[k] == bytes[k - p]
        invariant forall k :: p <= k < p + i ==> promAddr[k] == Addr32(base + addr + (k - p))
      {
        promData[p + i] := bytes[i];
        promAddr[p + i] := Addr32(base + addr + i);
        promLastAddr := Addr32(base + addr + i);
      }
      assert promData[p..] == bytes;
      assert promAddr[p..] == Addresses(base, addr, |bytes|);
    }

    /** Read lines until there is data, the end of the file, or an error. */
    method Fill() returns (status: int)
      requires Valid() && promPntr == 16
      modifies this, promData, promAddr
      ensures Valid()
      ensures status < 0 ==> old(Todo()) == Stream([], false) && !endOfFile
      ensures status >= 0 ==> Todo() == old(Todo()) && (if endOfFile then promPntr == 16 else promPntr < 16)
    {
      hide Meaning, Zip, Readable;
      status := 0;
      while true
        invariant Valid() && promPntr == 16 && Todo() == old(Todo()) && status >= 0
        decreases |file| - pos, !endOfFile
      {
        if !endOfFile {
          status := Next();
        }
        if endOfFile || status <= 0 {
          return;
        }
      }
    }

    /** The next byte; at the end of the file mem keeps its old address and data. */
    method Read(mem: McsReadData) returns (mem': McsReadData, status: int)
      requires Valid() && !(endOfFile && promPntr < 16)
      modifies this, promData, promAddr
      ensures Valid() && (status >= 0 ==> !(endOfFile && promPntr < 16))
      ensures var t := old(Todo());
              if t.cells != [] then
                && status == 0 && Todo() == Stream(t.cells[1..], t.ok)
                && mem' == McsReadData(t.cells[0].address, t.cells[0].data, false)
              else if t.ok then status >= 0 && mem' == mem.(endOfFile := true) && Todo() == t && endOfFile
              else status < 0 && mem' == mem
    {
      hide Meaning, Zip, Readable;
      status, mem' := 0, mem;
      if promPntr == 16 {
        status := Fill();
        if endOfFile {
          mem' := mem.(endOfFile := true);
          return;
        } else if status < 0 {
          return;
        }
      }
      ghost var t := Todo();
      Head(promAddr[promPntr..], promData[promPntr..], t.cells,
           if endOfFile then [] else Meaning(file[pos..], promBaseAddr).cells);
      mem' := McsReadData(promAddr[promPntr], promData[promPntr], false);
      promPntr := promPntr + 1;
      assert promAddr[promPntr..] == promAddr[promPntr - 1..][1..];
      assert promData[promPntr..] == promData[promPntr - 1..][1..];
      status := 0;
    }
  }

  /** Taking the first of the collected bytes. */
  lemma Head(addrs: seq<nat>, bytes: seq<nat>, all: seq<Cell>, rest: seq<Cell>)
    requires |addrs| == |bytes| > 0 && all == Zip(addrs, bytes) + rest
    ensures all != [] && all[0] == Cell(addrs[0], bytes[0]) && all[1..] == Zip(addrs[1..], bytes[1..]) + rest
  {
    ZipTail(addrs, bytes);
  }

  predicate StartsRecord(line: string)
    requires Readable(line)
    ensures StartsRecord(line) <==> line[0] == ':'
  {
    line[0] == ':'
  }

  /** The sum of a line, part by part. */
  lemma SumParts(bs: seq<nat>, n: nat)
    requires |bs| == n + 5
    ensures Sum(bs[..4]) == bs[0] + bs[1] + bs[2] + bs[3]
    ensures Sum(bs) == bs[0] + bs[1] + bs[2] + bs[3] + Sum(bs[4..4 + n]) + bs[4 + n]
  {
    hide Sum;
    assert bs[..4] == [] + [bs[0]] + [bs[1]] + [bs[2]] + [bs[3]];
    SumPush([] + [bs[0]] + [bs[1]] + [bs[2]], bs[3]);
    SumPush([] + [bs[0]] + [bs[1]], bs[2]);
    SumPush([] + [bs[0]], bs[1]);
    SumPush([], bs[0]);
    SumEmpty();
    assert bs == bs[..4] + bs[4..4 + n] + [bs[4 + n]];
    SumPush(bs[..4] + bs[4..4 + n], bs[4 + n]);
    SumConcat(bs[..4], bs[4..4 + n]);
  }

  lemma SumEmpty()
    ensures Sum([]) == 0
  {
  }
}

/** Checking the contents of the flash memory against a file. */
module PromVerify {
  import opened HexRecords
  import opened McsReader

  /** The flash memory: a 16-bit word at each address. */
  type Prom = nat -> nat

  predicate FileReadable(lines: seq<string>) {
    forall i :: 0 <= i < |lines| ==> Readable(lines[i])
  }

  /** Calling read until the end of the file or an error. */
  method ReadAll(lines: seq<string>) returns (cells: seq<Cell>, ok: bool)
    requires FileReadable(lines)
    ensures Stream(cells, ok) == Meaning(lines, 0)
  {
    hide Readable, Meaning, McsRead.Todo, McsRead.Pending, McsRead.Valid;
    var r := new McsRead(lines);
    var mem := McsReadData(0, 0, false);
    ghost var all := r.Todo();
    cells, ok := [], true;
    while !mem.endOfFile && ok
      invariant fresh(r) && fresh(r.promData) && fresh(r.promAddr) && r.Valid()
      invariant ok ==> !(r.endOfFile && r.promPntr < 16) && all == Stream(cells + r.Todo().cells, r.Todo().ok)
      invariant ok && mem.endOfFile ==> all == Stream(cells, true)
      invariant !ok ==> all == Stream(cells, false)
      decreases ok && !mem.endOfFile, |r.Todo().cells|
    {
      ghost var t := r.Todo();
      var status;
      mem, status := r.Read(mem);
      if status < 0 {
        ok := false;
      } else if !mem.endOfFile {
        Onward(all, cells, t);
        cells := cells + [Cell(mem.address, mem.data)];
      }
    }
  }

  /** The next byte moves from what is to come to what has come. */
  lemma Onward(all: Stream, cells: seq<Cell>, t: Stream)
    requires all == Stream(cells + t.cells, t.ok) && t.cells != []
    ensures all == Stream((cells + [t.cells[0]]) + t.cells[1..], t.ok)
  {
    assert t.cells == [t.cells[0]] + t.cells[1..];
  }

  /** The flash agrees with the bytes paired into little-endian words; a last single byte is paired with itself. */
  predicate Matches(cs: seq<Cell>, prom: Prom) {
    && (forall w :: 0 <= w < |cs| / 2 ==> prom(w) == cs[2 * w].data + 256 * cs[2 * w + 1].data)
    && (|cs| % 2 == 1 ==> prom(|cs| / 2) == cs[|cs| - 1].data + 256 * cs[|cs| - 1].data)
  }

  /** The words compared so far agree. */
  predicate Matched(cs: seq<Cell>, prom: Prom, words: nat)
    requires 2 * words <= |cs|
  {
    forall w :: 0 <= w < words ==> prom(w) == cs[2 * w].data + 256 * cs[2 * w + 1].data
  }

  /** What comparing word number words tells; a last single byte is the end of the file. */
  lemma Compared(cs: seq<Cell>, prom: Prom, words: nat)
    requires 2 * words <= |cs| && Matched(cs, prom, words)
    ensures 2 * words + 1 < |cs| ==>
              var pair := cs[2 * words].data + 256 * cs[2 * words + 1].data;
              if prom(words) == pair then Matched(cs, prom, words + 1) else !Matches(cs, prom)
    ensures 2 * words + 1 == |cs| ==>
              (Matches(cs, prom) <==> prom(words) == cs[2 * words].data + 256 * cs[2 * words].data)
    ensures 2 * words == |cs| ==> Matches(cs, prom)
  {
  }

  /** Verification succeeds exactly if the file is in order and the flash agrees with it. */
  method VerifyBootProm(lines: seq<string>, prom: Prom, junk: McsReadData) returns (ok: bool)
    requires FileReadable(lines)
    ensures ok <==> Meaning(lines, 0).ok && Matches(Meaning(lines, 0).cells, prom)
  {
    hide Readable, Meaning, Matches, Matched, McsRead.Todo, McsRead.Pending;
    var reader := new McsRead(lines);
    var mem := junk.(endOfFile := false);
    var address, fileData, toggle := 0, 0, false;
    ghost var all := reader.Todo();
    ghost var cs, n := all.cells, 0;             // n bytes read
    assert Matched(cs, prom, 0) by { NoneMatched(cs, prom); }
    while !mem.endOfFile
      invariant fresh(reader) && fresh(reader.promData) && fresh(reader.promAddr) && reader.Valid()
      invariant !(reader.endOfFile && reader.promPntr < 16)
      invariant n <= |cs| && reader.Todo() == Stream(cs[n..], all.ok)
      invariant !mem.endOfFile ==> n == 2 * address + (if toggle then 1 else 0) <= |cs|
      invariant !mem.endOfFile && toggle ==> fileData == cs[n - 1].data == mem.data
      invariant !mem.endOfFile ==> Matched(cs, prom, address)
      invariant mem.endOfFile ==> n == |cs| && all.ok && Matches(cs, prom)
      decreases !mem.endOfFile, |cs| - n
    {
      var status;
      mem, status := reader.Read(mem);
      if status < 0 {
        return false;
      }
      Compared(cs, prom, address);
      if !mem.endOfFile {
        assert cs[n..][1..] == cs[n + 1..] && cs[n..][0] == cs[n];
        n := n + 1;
      }
      if !toggle {
        toggle, fileData := true, mem.data;
      } else {
        toggle, fileData := false, fileData + 256 * mem.data;
        if fileData != prom(address) {
          return false;
        }
        address := address + 1;
      }
    }
    return true;
  }

  lemma NoneMatched(cs: seq<Cell>, prom: Prom)
    ensures Matched(cs, prom, 0)
  {
  }

  /** For a printed file with an even number of bytes: success exactly if every flash word is its byte pair. */
  lemma PrintedEven(rs: seq<Record>, prom: Prom)
    requires RecordsOk(rs) && |Contents(rs, 0)| % 2 == 0
    ensures forall i :: 0 <= i < |rs| + 1 ==> RecordOk((rs + [End])[i]) && Readable(PrintFile(rs + [End])[i])
    ensures var m := Meaning(PrintFile(rs + [End]), 0); var cs := Contents(rs, 0);
            m.ok && (Matches(m.cells, prom) <==> forall w :: 0 <= w < |cs| / 2 ==>
              prom(w) == cs[2 * w].data + 256 * cs[2 * w + 1].data)
  {
    hide Readable, Meaning, PrintRecord, Contents, RecordOk;
    FileRoundTrip(rs, 0);
  }
}
