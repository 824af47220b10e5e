/** The bytes on the wire, read from outside: what every datagram of either side says, byte for byte
    where the bytes are fixed, and field by field. */
module Wire {
  import opened Wrappers
  import opened Words
  import opened Frame
  import opened BitwiseCrc
  import opened Segments
  import S = Sender
  import R = Receiver
  import opened ClientView
  import opened WorldSafety

  /** The message ids as they stand on the wire, least significant byte first. */
  function IdBytes(id: MessageId): seq<Byte> {
    match id
    case NTF => [0x0F, 0x00, 0x00, 0x45]
    case CHK => [0x01, 0x00, 0xFD, 0x45]
    case INFO => [0x02, 0x00, 0xFD, 0x45]
    case RDY => [0x03, 0x00, 0xFD, 0x45]
    case CXL => [0x0C, 0x00, 0xFD, 0x45]
    case DATA => [0x0D, 0x00, 0xFD, 0x45]
    case RTX => [0x0E, 0x00, 0xFD, 0x45]
    case DONE => [0x0F, 0x00, 0xFD, 0x45]
    case FIN => [0x0A, 0x00, 0xFD, 0x45]
  }

  lemma SomeBytes()
    ensures ToByte(0x00) == 0x00 && ToByte(0x01) == 0x01 && ToByte(0x02) == 0x02 && ToByte(0x03) == 0x03
    ensures ToByte(0x0A) == 0x0A && ToByte(0x0C) == 0x0C && ToByte(0x0D) == 0x0D && ToByte(0x0E) == 0x0E
    ensures ToByte(0x0F) == 0x0F && ToByte(0xFD) == 0xFD && ToByte(0x45) == 0x45
    ensures ToByte(0x4C) == 0x4C && ToByte(0x42) == 0x42 && ToByte(0x4F) == 0x4F && ToByte(0x52) == 0x52
  {
  }

  lemma CodeOnWire(id: MessageId)
    ensures Put32(Code(id)) == IdBytes(id)
  {
    hide ToByte;
    SomeBytes();
  }

  lemma MagicOnWire()
    ensures Put32(MAGIC) == [0x4C, 0x42, 0x4F, 0x52]
  {
    hide ToByte;
    SomeBytes();
  }

  /** Word `i` of the header stands at bytes `4 * i` to `4 * i + 3`. */
  lemma WordOnWire(h: Header, rest: seq<Byte>, i: nat)
    requires Wellsized(h) && i < 8
    ensures (Layout(h) + rest)[4 * i..4 * i + 4] == Put32(HeaderWords(h)[i])
  {
    hide Digit, HeaderWords;
    assert 4 * i / 4 == (4 * i + 1) / 4 == (4 * i + 2) / 4 == (4 * i + 3) / 4 == i;
  }

  lemma HeaderOnWire(h: Header, rest: seq<Byte>)
    requires Wellsized(h)
    ensures var d := Layout(h) + rest;
            && |d| == 32 + |rest| && d[32..] == rest && Read(d) == h
            && d[..4] == Put32(h.magic) && d[4..8] == Put32(h.spid + 0x1_0000 * h.dpid) && d[16..20] == Put32(h.xid)
  {
    hide Layout, Read, Put32;
    LayoutReads(h, rest);
    WordOnWire(h, rest, 0);
    WordOnWire(h, rest, 1);
    WordOnWire(h, rest, 4);
  }

  lemma ServerPort(device: u32)
    ensures var d := device % 0x1_0000;
            Put32(0xFD00 + 0x1_0000 * d) == [0x00, 0xFD] + [Digit(d, 0), Digit(d, 1)]
  {
    var d := device % 0x1_0000;
    var n := 0xFD00 + 0x1_0000 * d;
    assert n / 0x100 == 0xFD + 0x100 * d;
    assert n / 0x100 / 0x100 == d;
    assert n % 256 == 0 && n / 0x100 % 256 == 0xFD;
    assert d / 0x100 < 256;
  }

  lemma ClientPort()
    ensures Put32(0x1_0000 * 0xFD00) == [0x00, 0x00] + [0x00, 0xFD]
  {
    hide ToByte;
    SomeBytes();
  }

  /** Every datagram of the sender: "LBOR", source 0xFD00, the device as destination, the id; the counts
      and lengths that its total length and number call for. */
  lemma ServerOnWire(j: S.Job, id: MessageId, tpl: u32, psn: u32, payload: seq<Byte>)
    requires S.ServerHeader(j, id, tpl, psn).pl <= |payload|
    ensures var d, h := S.ServerFrame(j, id, tpl, psn, payload), Read(S.ServerFrame(j, id, tpl, psn, payload));
            && |d| == 32 + |payload| && d[32..] == payload
            && d[..6] == [0x4C, 0x42, 0x4F, 0x52] + [0x00, 0xFD] && d[16..20] == IdBytes(id)
            && h.magic == 0x524F424C && h.spid == 0xFD00 && h.dpid == j.device % 0x1_0000
            && h.tpl == tpl && h.psn == psn
            && h.tpn == (if tpl == 0 then 1 else (tpl + 1407) / 1408)
            && h.pl == (if psn + 1 == h.tpn then tpl % 1408 else 1408)
  {
    hide Checksum, Digit, Layout, Read, Put32, Code, IdBytes;
    var h := S.ServerHeader(j, id, tpl, psn);
    var d := Layout(Seal(h, payload)) + payload;
    PacketsInRange(tpl);
    HeaderOnWire(Seal(h, payload), payload);
    CodeOnWire(id);
    MagicOnWire();
    ServerPort(j.device);
    assert d[4..6] == d[4..8][..2];
    assert d[..6] == d[..4] + d[4..6];
  }

  /** Every datagram of the receiver: "LBOR", source 0, destination 0xFD00, the id; one packet, as long as
      its payload. */
  lemma ClientOnWire(id: MessageId, payload: seq<Byte>)
    requires |payload| <= 1408
    ensures var d, h := R.ClientFrame(id, payload), Read(R.ClientFrame(id, payload));
            && |d| == 32 + |payload| && d[32..] == payload
            && d[..8] == [0x4C, 0x42, 0x4F, 0x52] + ([0x00, 0x00] + [0x00, 0xFD]) && d[16..20] == IdBytes(id)
            && h.magic == 0x524F424C && h.spid == 0 && h.dpid == 0xFD00
            && h.tpn == 1 && h.psn == 0 && h.tpl == h.pl == |payload|
  {
    hide Checksum, Digit, Layout, Read, Put32, Code, IdBytes;
    var h := R.ClientHeader(id, |payload|);
    var d := Layout(Seal(h, payload)) + payload;
    HeaderOnWire(Seal(h, payload), payload);
    CodeOnWire(id);
    MagicOnWire();
    ClientPort();
    assert d[..8] == d[..4] + d[4..8];
  }

  // ---- The payloads ----

  /** The fields of the receiver's messages stand where the sender reads them. */
  lemma ClientPayloads(version: u32, size: u32, last: u32)
    ensures R.ChkFrame(version)[32..] == Put32(version)
    ensures R.RdyFrame(version, size, last)[32..] == Put32(version) + Put32(size) + Put32(last)
    ensures R.DoneFrame(version, size, last)[32..] == Put32(version) + Put32(size) + Put32(last)
    ensures R.RtxFrame(last)[32..] == Put32(last)
    ensures R.ClientCxlFrame()[32..] == []
  {
    hide R.ClientFrame, Put32;
    ClientOnWire(CHK, Put32(version));
    ClientOnWire(RDY, Put32(version) + Put32(size) + Put32(last));
    ClientOnWire(DONE, Put32(version) + Put32(size) + Put32(last));
    ClientOnWire(RTX, Put32(last));
    ClientOnWire(CXL, []);
  }

  /** RDY names the file it is ready for, and the gap it asks for. */
  lemma RdyReads(version: u32, size: u32, gap: u32, m: Buffer, len: nat)
    requires Holds(m, len, R.RdyFrame(version, size, gap))
    ensures Intact(m, len) && IdOf(Get32(m, 16)) == Some(RDY) && len == 44
    ensures Get32(m, 32) == version && Get32(m, 36) == size && Get32(m, 40) == gap
  {
    hide R.ClientFrame, Get32, Intact, Put32, Payload;
    ClientFrameReads(RDY, Put32(version) + Put32(size) + Put32(gap), m, len);
    PayloadWords(m, len, version, size, gap);
  }
}
