/** The simulated packet capture (src/components/PacketViewer.tsx): the list of attack
    entries and the synthetic packet drawn for each, with its eight-line hex dump. */
module PacketViewer {
  import opened Seqs
  import opened Text
  import opened Radix
  import opened Random
  import opened Logs

  const Protocols: seq<string> := ["TCP", "UDP", "ICMP", "HTTP", "HTTPS"]

  /** The destination ports an attack packet is given. */
  const AttackPorts: seq<nat> := [80, 443, 22, 3306, 8080]

  /** The hex dump has this many lines of `BytesPerLine` bytes. */
  const DumpLines := 8
  const BytesPerLine := 16

  /** The `Math.random()` draws of one packet, one per byte of the dump included. */
  datatype PacketDraws = PacketDraws(
    protocol: real,
    srcPort: real,
    dstPort: real,
    payload: real,
    bytes: seq<real>,
    ttl: real,
    checksum: real)

  predicate AllUnit(rs: seq<real>)
  {
    forall i :: 0 <= i < |rs| ==> Unit(rs[i])
  }

  predicate ValidPacketDraws(d: PacketDraws)
  {
    && Unit(d.protocol) && Unit(d.srcPort) && Unit(d.dstPort) && Unit(d.payload)
    && |d.bytes| == DumpLines * BytesPerLine && AllUnit(d.bytes)
    && Unit(d.ttl) && Unit(d.checksum)
  }

  datatype Packet = Packet(
    protocol: string,
    srcPort: nat,
    dstPort: nat,
    payloadSize: nat,
    hexDump: seq<string>,
    flags: string,
    ttl: nat,
    checksum: string)

  /** A string of exactly `k` lower-case hex digits. */
  predicate HexDigits(s: string, k: nat)
  {
    |s| == k && IsDigits(s, 16)
  }

  /** `n.toString(16).padStart(k, '0')`. */
  function PaddedHex(n: nat, k: nat): string
  {
    PadStart(Hex(n), k, '0')
  }

  lemma PaddedHexDigits(n: nat, k: nat)
    requires k >= 1 && n < Pow(16, k)
    ensures HexDigits(PaddedHex(n, k), k) && Value(PaddedHex(n, k), 16) == n
  {
    PaddedRadix(n, 16, k);
  }

  /** One byte as two lower-case hex digits, high digit first. */
  function HexByte(b: nat): (s: string)
    requires b < 256
    ensures HexDigits(s, 2) && Value(s, 16) == b
  {
    DigitRoundTrip(b / 16);
    DigitRoundTrip(b % 16);
    DivMod(b, 16);
    var s := [DigitChar(b / 16), DigitChar(b % 16)];
    assert s[..1] == [DigitChar(b / 16)] && s[..1][..0] == [];
    assert Value(s[..1], 16) == b / 16;
    assert Value(s, 16) == Value(s[..1], 16) * 16 + b % 16;
    s
  }

  /** `b.toString(16).padStart(2, '0')` is the byte's two hex digits. */
  lemma HexByteIsPadded(b: nat)
    requires b < 256
    ensures PaddedHex(b, 2) == HexByte(b)
  {
    if b >= 16 {
      assert Hex(b) == Hex(b / 16) + [DigitChar(b % 16)];
    }
  }

  /** The byte values of the dump: `Math.floor(Math.random() * 256)` per draw. */
  function DrawBytes(rs: seq<real>): (bs: seq<nat>)
    requires AllUnit(rs)
    ensures |bs| == |rs|
    ensures forall j :: 0 <= j < |rs| ==> bs[j] == Draw(rs[j], 256) && bs[j] < 256
  {
    seq(|rs|, j requires 0 <= j < |rs| => Draw(rs[j], 256))
  }

  predicate Bytes(bs: seq<nat>)
  {
    |bs| == DumpLines * BytesPerLine && forall j :: 0 <= j < |bs| ==> bs[j] < 256
  }

  /** The sixteen bytes of dump line `i`, each as two hex digits. */
  function RowBytes(bs: seq<nat>, i: nat): (r: seq<string>)
    requires Bytes(bs) && i < DumpLines
    ensures |r| == BytesPerLine
    ensures forall j :: 0 <= j < BytesPerLine ==> r[j] == HexByte(bs[16 * i + j]) && |r[j]| == 2
  {
    seq(BytesPerLine, j requires 0 <= j < BytesPerLine => HexByte(bs[16 * i + j]))
  }

  /** Where the pieces of a dump line sit: a four-character offset, two spaces, then
      two-character parts separated by single spaces. */
  lemma LineLayout(prefix: string, parts: seq<string>)
    requires |prefix| == 4 && |parts| == BytesPerLine
    requires forall j :: 0 <= j < |parts| ==> |parts[j]| == 2
    ensures var line := prefix + "  " + Join(parts, ' ');
      && |line| == 53 && line[..4] == prefix && line[4..6] == "  "
      && (forall j :: 0 <= j < BytesPerLine ==> line[6 + 3 * j..8 + 3 * j] == parts[j])
      && (forall j :: 0 <= j < BytesPerLine - 1 ==> line[8 + 3 * j] == ' ')
  {
    JoinPairs(parts, ' ');
    var body := Join(parts, ' ');
    var line := prefix + "  " + body;
    assert line[..4] == prefix && line[6..] == body;
    forall j | 0 <= j < BytesPerLine
      ensures line[6 + 3 * j..8 + 3 * j] == parts[j]
    {
      assert line[6 + 3 * j..8 + 3 * j] == body[3 * j..3 * j + 2];
    }
    forall j | 0 <= j < BytesPerLine - 1
      ensures line[8 + 3 * j] == ' '
    {
      assert line[8 + 3 * j] == body[3 * j + 2];
    }
  }

  /** The offset of dump line `i`, `16 * i`, as four hex digits: "00", the digit of
      `i`, "0". */
  function OffsetText(i: nat): (s: string)
    requires i < DumpLines
    ensures HexDigits(s, 4) && Value(s, 16) == 16 * i
  {
    var s := ['0', '0', DigitChar(i), '0'];
    DigitRoundTrip(i);
    assert s[..3][..2] == s[..2] && s[..2][..1] == s[..1] && s[..1][..0] == [];
    assert Value(s[..1], 16) == 0 && Value(s[..2], 16) == 0;
    assert Value(s[..3], 16) == i;
    s
  }

  /** `(i * 16).toString(16).padStart(4, '0')` is that offset text: 0000, 0010, ...,
      0070. */
  lemma OffsetLabel(i: nat)
    requires i < DumpLines
    ensures PaddedHex(16 * i, 4) == OffsetText(i)
  {
    if i > 0 {
      assert Hex(16 * i) == Hex(i) + [DigitChar(0)];
    }
  }

  lemma OffsetLabels()
    ensures OffsetText(0) == "0000" && OffsetText(1) == "0010" && OffsetText(2) == "0020"
    ensures OffsetText(3) == "0030" && OffsetText(4) == "0040" && OffsetText(5) == "0050"
    ensures OffsetText(6) == "0060" && OffsetText(7) == "0070"
  {
  }

  /** Dump line `i`: the offset `16 * i` as four hex digits, two spaces, then bytes
      `16 * i` to `16 * i + 15` separated by single spaces. */
  function HexLine(bs: seq<nat>, i: nat): (line: string)
    requires Bytes(bs) && i < DumpLines
    ensures |line| == 53
    ensures line[..4] == OffsetText(i)
    ensures line[4..6] == "  "
    ensures forall j :: 0 <= j < BytesPerLine ==> line[6 + 3 * j..8 + 3 * j] == HexByte(bs[16 * i + j])
    ensures forall j :: 0 <= j < BytesPerLine - 1 ==> line[8 + 3 * j] == ' '
  {
    var parts := RowBytes(bs, i);
    LineLayout(OffsetText(i), parts);
    var line := OffsetText(i) + "  " + Join(parts, ' ');
    forall j | 0 <= j < BytesPerLine
      ensures line[6 + 3 * j..8 + 3 * j] == HexByte(bs[16 * i + j])
    {
      assert line[6 + 3 * j..8 + 3 * j] == parts[j];
    }
    line
  }

  /** The `for` loop that builds the dump, one line per iteration. */
  method HexDump(bytes: seq<nat>) returns (dump: seq<string>)
    requires Bytes(bytes)
    ensures |dump| == DumpLines
    ensures forall i :: 0 <= i < DumpLines ==> dump[i] == HexLine(bytes, i)
  {
    dump := [];
    var i := 0;
    while i < DumpLines
      invariant 0 <= i <= DumpLines && |dump| == i
      invariant forall k :: 0 <= k < i ==> dump[k] == HexLine(bytes, k)
    {
      var line := HexLine(bytes, i);
      var next := dump + [line];
      forall k | 0 <= k < i + 1
        ensures next[k] == HexLine(bytes, k)
      {
        if k < i {
          assert next[k] == dump[k];
        } else {
          assert next[k] == line;
        }
      }
      dump := next;
      i := i + 1;
    }
  }

  /** `generatePacketData`: a protocol of the list, a source port below 65535, a
      well-known destination port for an attack and the source port otherwise, a
      payload of 64..1563 bytes, the dump, the flags, a TTL of 64..127 and a checksum of
      four hex digits. */
  method GeneratePacketData(log: LogEntry, d: PacketDraws) returns (p: Packet)
    requires ValidPacketDraws(d)
    ensures p.protocol == Protocols[Draw(d.protocol, 5)] && p.protocol in Protocols
    ensures p.srcPort == Draw(d.srcPort, 65535) && p.srcPort <= 65534
    ensures log.kind == Attack ==> p.dstPort == AttackPorts[Draw(d.dstPort, 5)] && p.dstPort in AttackPorts
    ensures log.kind == Defense ==> p.dstPort == p.srcPort
    ensures 64 <= p.payloadSize <= 1563 && p.payloadSize == Draw(d.payload, 1500) + 64
    ensures |p.hexDump| == DumpLines
    ensures forall i :: 0 <= i < DumpLines ==> p.hexDump[i] == HexLine(DrawBytes(d.bytes), i)
    ensures p.flags == (if log.kind == Attack then "SYN, ACK, PSH" else "ACK")
    ensures 64 <= p.ttl <= 127 && p.ttl == Draw(d.ttl, 64) + 64
    ensures p.checksum == PaddedHex(Draw(d.checksum, 0xFFFF), 4)
    ensures HexDigits(p.checksum, 4) && Value(p.checksum, 16) == Draw(d.checksum, 0xFFFF)
    ensures Value(p.checksum, 16) <= 0xFFFE
  {
    var protocol := Protocols[Draw(d.protocol, |Protocols|)];
    var srcPort := Draw(d.srcPort, 65535);
    var dstPort := if log.kind == Attack then AttackPorts[Draw(d.dstPort, 5)] else srcPort;
    var payloadSize := Draw(d.payload, 1500) + 64;
    var hexDump := HexDump(DrawBytes(d.bytes));
    var sum := Draw(d.checksum, 0xFFFF);
    assert Pow(16, 4) == 0x1_0000;
    PaddedHexDigits(sum, 4);
    p := Packet(
      protocol,
      srcPort,
      dstPort,
      payloadSize,
      hexDump,
      if log.kind == Attack then "SYN, ACK, PSH" else "ACK",
      Draw(d.ttl, 64) + 64,
      PaddedHex(sum, 4));
  }

  /** The checksum never reads "ffff": the draw stops one short of 0xFFFF. */
  lemma ChecksumNotFFFF(s: string)
    requires HexDigits(s, 4) && Value(s, 16) <= 0xFFFE
    ensures s != "ffff"
  {
    assert "ffff"[..3] == "fff" && "fff"[..2] == "ff" && "ff"[..1] == "f" && "f"[..0] == "";
    assert Value("ffff", 16) == 0xFFFF;
  }

  /** The captured packets: the attack entries of the log. */
  function AttackLogs(logs: seq<LogEntry>): (r: seq<LogEntry>)
    ensures |r| <= |logs|
    ensures forall i :: 0 <= i < |r| ==> r[i] in logs && r[i].kind == Attack
  {
    OfType(logs, Attack)
  }

  /** The list consists exactly of the attack entries, in log order: they sit at strictly
      increasing positions of the log, and every attack position is among them. */
  lemma AttackLogsInOrder(logs: seq<LogEntry>) returns (idx: seq<nat>)
    ensures |idx| == |AttackLogs(logs)|
    ensures forall k :: 0 <= k < |idx| ==> idx[k] < |logs| && logs[idx[k]] == AttackLogs(logs)[k]
    ensures forall k, l :: 0 <= k < l < |idx| ==> idx[k] < idx[l]
    ensures forall i :: 0 <= i < |logs| && logs[i].kind == Attack ==> i in idx
  {
    idx := FilterPositions(logs, KindIs(Attack));
    forall i | 0 <= i < |logs| && logs[i].kind == Attack
      ensures i in idx
    {
      assert KindIs(Attack)(logs[i]);
    }
  }

  /** A defense entry in front of the log adds no packet. */
  lemma DefenseAddsNoPacket(e: LogEntry, logs: seq<LogEntry>)
    requires e.kind == Defense
    ensures AttackLogs([e] + logs) == AttackLogs(logs)
  {
    OfTypePrepend(e, logs, Attack);
  }
}
