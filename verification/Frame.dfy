/** TRFTP datagrams (`include/trftp/common.h`): a packed 32-byte header and a payload of at most
    1408 bytes, sealed with a CRC-32 that is computed with the crc field set to zero. */
module Frame {
  import opened Wrappers
  import opened Words
  import opened BitwiseCrc
  import CrcTable

  const MAGIC: u32 := 0x524F424C
  const HEADER_SIZE: nat := 32
  const PAYLOAD_SIZE: nat := 1408
  const MESSAGE_SIZE: nat := 1440

  datatype MessageId = NTF | CHK | INFO | RDY | CXL | DATA | RTX | DONE | FIN

  function Code(id: MessageId): u32 {
    match id
    case NTF => 0x4500_000F
    case CHK => 0x45FD_0001
    case INFO => 0x45FD_0002
    case RDY => 0x45FD_0003
    case CXL => 0x45FD_000C
    case DATA => 0x45FD_000D
    case RTX => 0x45FD_000E
    case DONE => 0x45FD_000F
    case FIN => 0x45FD_000A
  }

  function IdOf(code: u32): Option<MessageId> {
    if code == 0x4500_000F then Some(NTF)
    else if code == 0x45FD_0001 then Some(CHK)
    else if code == 0x45FD_0002 then Some(INFO)
    else if code == 0x45FD_0003 then Some(RDY)
    else if code == 0x45FD_000C then Some(CXL)
    else if code == 0x45FD_000D then Some(DATA)
    else if code == 0x45FD_000E then Some(RTX)
    else if code == 0x45FD_000F then Some(DONE)
    else if code == 0x45FD_000A then Some(FIN)
    else None
  }

  datatype Header = Header(
    magic: u32, spid: u32, dpid: u32, tpn: u32, tpl: u32, xid: u32, crc32: u32, psn: u32, pl: u32)

  /** A `TrftpMessage` in memory; only its first `len` bytes were received. */
  type Buffer = m: seq<Byte> | |m| == MESSAGE_SIZE witness seq(MESSAGE_SIZE, _ => 0)

  type Datagram = seq<Byte>

  // The packed struct as eight little-endian words; `spid` and `dpid` share the second.
  function HeaderWords(h: Header): (ws: seq<u32>)
    requires Wellsized(h)
    ensures |ws| == 8
  {
    [h.magic, h.spid + 0x1_0000 * h.dpid, h.tpn, h.tpl, h.xid, h.crc32, h.psn, h.pl]
  }

  predicate Wellsized(h: Header) {
    h.spid < 0x1_0000 && h.dpid < 0x1_0000
  }

  function Layout(h: Header): (s: seq<Byte>)
    requires Wellsized(h)
    ensures |s| == HEADER_SIZE
  {
    seq(HEADER_SIZE, k requires 0 <= k < HEADER_SIZE => Digit(HeaderWords(h)[k / 4], k % 4))
  }

  function Read(m: seq<Byte>): Header
    requires HEADER_SIZE <= |m|
  {
    Header(Get32(m, 0), Get32(m, 4) % 0x1_0000, Get32(m, 4) / 0x1_0000, Get32(m, 8), Get32(m, 12),
           Get32(m, 16), Get32(m, 20), Get32(m, 24), Get32(m, 28))
  }

  /** The bytes the checksum covers: everything, with the crc field zeroed. */
  function Zeroed(m: seq<Byte>): (z: seq<Byte>)
    requires HEADER_SIZE <= |m|
    ensures |z| == |m|
  {
    m[..20] + [0, 0, 0, 0] + m[24..]
  }

  /** `ValidateMessageIntegrity`, the same on both sides. */
  predicate Intact(m: Buffer, len: nat) {
    && len <= MESSAGE_SIZE
    && Checksum(Zeroed(m)[..len]) == Get32(m, 20)
    && Get32(m, 0) == MAGIC
    && len == HEADER_SIZE + Get32(m, 28)
    && Get32(m, 24) < Get32(m, 8)
  }

  function Payload(m: Buffer, len: nat): (p: seq<Byte>)
    requires HEADER_SIZE <= len <= MESSAGE_SIZE
    ensures |p| == len - HEADER_SIZE
  {
    m[HEADER_SIZE..len]
  }

  lemma IntactLength(m: Buffer, len: nat)
    requires Intact(m, len)
    ensures HEADER_SIZE <= len <= MESSAGE_SIZE
  {
  }

  // ---- Building ----

  function Seal(h: Header, payload: seq<Byte>): Header
    requires h.pl <= |payload| && Wellsized(h)
  {
    h.(crc32 := Checksum(Layout(h.(crc32 := 0)) + payload[..h.pl]))
  }

  function Packed(h: Header, payload: seq<Byte>): Datagram
    requires h.pl <= |payload| && Wellsized(h)
  {
    Layout(Seal(h, payload)) + payload
  }

  /** A datagram arrives undamaged in the buffer; the rest of the buffer is arbitrary. */
  predicate Holds(m: Buffer, len: nat, d: Datagram) {
    len <= MESSAGE_SIZE && m[..len] == d
  }

  lemma WordReads(h: Header, rest: seq<Byte>, i: nat)
    requires Wellsized(h) && i < 8
    ensures Get32(Layout(h) + rest, 4 * i) == HeaderWords(h)[i]
  {
    hide Value, Digit, HeaderWords;
    ValueOfDigits(HeaderWords(h)[i]);
    assert 4 * i / 4 == (4 * i + 1) / 4 == (4 * i + 2) / 4 == (4 * i + 3) / 4 == i;
  }

  lemma LayoutReads(h: Header, rest: seq<Byte>)
    requires Wellsized(h)
    ensures Read(Layout(h) + rest) == h
  {
    hide Layout, Get32;
    WordReads(h, rest, 0); WordReads(h, rest, 1); WordReads(h, rest, 2); WordReads(h, rest, 3);
    WordReads(h, rest, 4); WordReads(h, rest, 5); WordReads(h, rest, 6); WordReads(h, rest, 7);
  }

  lemma LayoutZeroed(h: Header, rest: seq<Byte>)
    requires Wellsized(h)
    ensures Zeroed(Layout(h) + rest) == Layout(h.(crc32 := 0)) + rest
  {
    ZeroDigits();
    hide Digit, HeaderWords;
    var g := h.(crc32 := 0);
    assert forall i :: 0 <= i < 8 && i != 5 ==> HeaderWords(h)[i] == HeaderWords(g)[i] by { SameWords(h, 0); }
    assert HeaderWords(g)[5] == 0 by { SameWords(h, 0); }
    assert forall k :: 20 <= k < 24 ==> k / 4 == 5;
    assert forall k :: 0 <= k < 32 && !(20 <= k < 24) ==> k / 4 != 5;
  }

  lemma SameWords(h: Header, crc: u32)
    requires Wellsized(h)
    ensures HeaderWords(h.(crc32 := crc)) == HeaderWords(h)[5 := crc]
  {
  }

  /** Framing round trip: what was packed is what is read, and it passes the integrity check
      exactly when its length field is the length of its payload. */
  lemma Unpack(m: Buffer, len: nat, h: Header, payload: seq<Byte>)
    requires h.pl <= |payload| && Wellsized(h)
    requires Holds(m, len, Packed(h, payload))
    ensures len == HEADER_SIZE + |payload| && Payload(m, len) == payload
    ensures Read(m) == Seal(h, payload)
    ensures Intact(m, len) <==> h.magic == MAGIC && |payload| == h.pl && h.psn < h.tpn
  {
    hide Checksum, Digit, Value, Layout, Read;
    var s := Seal(h, payload);
    assert m == Layout(s) + m[32..] by {
      assert m[..32] == m[..len][..32] == Layout(s);
    }
    LayoutReads(s, m[32..]);
    LayoutZeroed(s, m[32..]);
    assert Payload(m, len) == m[..len][32..] == payload;
    assert Zeroed(m)[..len] == Layout(h.(crc32 := 0)) + payload by {
      assert s.(crc32 := 0) == h.(crc32 := 0);
      assert m[32..][..len - 32] == payload;
    }
    if |payload| == h.pl {
      assert payload[..h.pl] == payload;
    }
    ReadFields(m);
  }

  lemma ReadFields(m: seq<Byte>)
    requires HEADER_SIZE <= |m|
    ensures Read(m).magic == Get32(m, 0) && Read(m).tpn == Get32(m, 8) && Read(m).tpl == Get32(m, 12)
        && Read(m).xid == Get32(m, 16)
    ensures Read(m).crc32 == Get32(m, 20) && Read(m).psn == Get32(m, 24) && Read(m).pl == Get32(m, 28)
  {
  }

  lemma IdOfCode(id: MessageId)
    ensures IdOf(Code(id)) == Some(id)
  {
  }

  /** The message id stands at the same place in every datagram. */
  lemma PackedId(h: Header, payload: seq<Byte>)
    requires h.pl <= |payload| && Wellsized(h)
    ensures |Packed(h, payload)| == HEADER_SIZE + |payload| && Get32(Packed(h, payload), 16) == h.xid
  {
    hide Checksum, Layout, Get32;
    LayoutReads(Seal(h, payload), payload);
    ReadFields(Packed(h, payload));
  }

  /** One field, or three, in the payload. */
  lemma PayloadWord(m: Buffer, len: nat, a: u32)
    requires HEADER_SIZE <= len <= MESSAGE_SIZE && Payload(m, len) == Put32(a)
    ensures len == HEADER_SIZE + 4 && Get32(m, 32) == a
  {
    hide Digit, Value;
    ValueOfDigits(a);
    assert |Payload(m, len)| == 4;
    assert m[32] == Put32(a)[0] && m[33] == Put32(a)[1] && m[34] == Put32(a)[2] && m[35] == Put32(a)[3];
  }

  lemma PayloadWords(m: Buffer, len: nat, a: u32, b: u32, c: u32)
    requires HEADER_SIZE <= len <= MESSAGE_SIZE && Payload(m, len) == Put32(a) + Put32(b) + Put32(c)
    ensures len == HEADER_SIZE + 12 && Get32(m, 32) == a && Get32(m, 36) == b && Get32(m, 40) == c
  {
    hide Digit, Value;
    ValueOfDigits(a);
    ValueOfDigits(b);
    ValueOfDigits(c);
    var p := Put32(a) + Put32(b) + Put32(c);
    assert |Payload(m, len)| == 12;
    assert forall k :: 0 <= k < 12 ==> m[32 + k] == p[k];
    assert m[36] == p[4] && m[37] == p[5] && m[38] == p[6] && m[39] == p[7];
    assert m[40] == p[8] && m[41] == p[9] && m[42] == p[10] && m[43] == p[11];
  }

  // ---- Damage ----

  /** `e` is `d` with at least one byte altered, either all inside the crc field or all outside
      it and within four consecutive bytes. */
  ghost predicate Damaged(d: Datagram, e: Datagram) {
    && |d| == |e| && d != e
    && ( || (forall j :: 0 <= j < |d| && d[j] != e[j] ==> 20 <= j < 24)
         || exists i :: BurstAt(d, e, i))
  }

  ghost predicate BurstAt(d: Datagram, e: Datagram, i: int)
    requires |d| == |e|
  {
    forall j :: 0 <= j < |d| && d[j] != e[j] ==> i <= j < i + 4 && !(20 <= j < 24)
  }

  lemma BurstDetected(a: seq<Byte>, b: seq<Byte>, i: int)
    requires |a| == |b| >= 4 && a != b
    requires forall j :: 0 <= j < |a| && a[j] != b[j] ==> i <= j < i + 4
    ensures Checksum(a) != Checksum(b)
  {
    hide Checksum, Crc32;
    var k := if i < 0 then 0 else if i + 4 > |a| then |a| - 4 else i;
    var before, after := a[..k], a[k + 4..];
    assert forall j :: 0 <= j < |a| && a[j] != b[j] ==> k <= j < k + 4;
    assert b[..k] == before && b[k + 4..] == after;
    assert a == before + a[k..k + 4] + after;
    assert b == before + b[k..k + 4] + after;
    BurstChanges(before, a[k..k + 4], b[k..k + 4], after, 0);
    ChecksumInjective(a, b);
  }

  /** Corruption detection: a valid datagram damaged in this way is never accepted. */
  lemma DamageDetected(m: Buffer, n: Buffer, len: nat)
    requires Intact(m, len) && Damaged(m[..len], n[..len])
    ensures !Intact(n, len)
  {
    hide Checksum, Value;
    var d, e := m[..len], n[..len];
    var a, b := Zeroed(m)[..len], Zeroed(n)[..len];
    if forall j :: 0 <= j < |d| && d[j] != e[j] ==> 20 <= j < 24 {
      assert a == b;
      assert Get32(m, 20) != Get32(n, 20) by { FieldDiffers(m, n, len); }
    } else {
      var i :| BurstAt(d, e, i);
      assert d[20] == e[20] && d[21] == e[21] && d[22] == e[22] && d[23] == e[23];
      assert forall j :: 0 <= j < len && a[j] != b[j] ==> d[j] != e[j];
      assert forall j :: 0 <= j < len && d[j] != e[j] ==> a[j] != b[j];
      var w :| 0 <= w < len && d[w] != e[w];
      assert a[w] != b[w];
      BurstDetected(a, b, i);
    }
  }

  lemma FieldDiffers(m: Buffer, n: Buffer, len: nat)
    requires 24 <= len <= MESSAGE_SIZE && m[..len] != n[..len]
    requires forall j :: 0 <= j < len && m[..len][j] != n[..len][j] ==> 20 <= j < 24
    ensures Get32(m, 20) != Get32(n, 20)
  {
    hide Value;
    DigitsOfValue(m[20], m[21], m[22], m[23]);
    DigitsOfValue(n[20], n[21], n[22], n[23]);
    var w :| 0 <= w < len && m[..len][w] != n[..len][w];
  }

  // ---- In place ----

  method Write32(msg: array<Byte>, at: nat, n: u32)
    requires at + 4 <= msg.Length
    modifies msg
    ensures msg[..] == old(msg[..at]) + Put32(n) + old(msg[at + 4..])
  {
    msg[at], msg[at + 1], msg[at + 2], msg[at + 3] := Digit(n, 0), Digit(n, 1), Digit(n, 2), Digit(n, 3);
  }

  /** Sets the header fields of `msg`, with the checksum of the header and `h.pl` payload bytes. */
  method SealInPlace(msg: array<Byte>, h: Header)
    requires msg.Length == MESSAGE_SIZE && h.pl <= PAYLOAD_SIZE && Wellsized(h)
    modifies msg
    ensures msg[..] == Layout(Seal(h, old(msg[HEADER_SIZE..]))) + old(msg[HEADER_SIZE..])
  {
    hide Checksum, Digit, Crc32, Layout, Put32;
    ghost var rest := msg[HEADER_SIZE..];
    var z := Layout(h.(crc32 := 0));
    forall k | 0 <= k < HEADER_SIZE {
      msg[k] := z[k];
    }
    assert msg[..] == z + rest;
    assert msg[..HEADER_SIZE + h.pl] == z + rest[..h.pl];
    var crc := CrcTable.CalculateCrc32(msg, HEADER_SIZE + h.pl, 0);
    CrcValue(msg[..HEADER_SIZE + h.pl]);
    Write32(msg, 20, crc as int);
    var s := Layout(h.(crc32 := crc as int));
    LayoutCrc(h, crc as int);
    assert msg[..] == s + rest;
  }

  lemma LayoutCrc(h: Header, crc: u32)
    requires Wellsized(h)
    ensures Layout(h.(crc32 := crc)) == Layout(h.(crc32 := 0))[..20] + Put32(crc) + Layout(h.(crc32 := 0))[24..]
  {
    SameWords(h, 0);
    SameWords(h, crc);
    hide Digit, HeaderWords;
    assert forall k :: 20 <= k < 24 ==> k / 4 == 5 && k % 4 == k - 20;
    assert forall k :: 0 <= k < 32 && !(20 <= k < 24) ==> k / 4 != 5;
  }

  lemma CrcValue(s: seq<Byte>)
    ensures Checksum(s) == Crc32(s, 0) as int
  {
  }

  /** `ValidateMessageIntegrity`: the crc field is swapped out for the computation and put back. */
  method ValidateMessageIntegrity(msg: array<Byte>, len: nat) returns (ok: bool)
    requires msg.Length == MESSAGE_SIZE && len <= MESSAGE_SIZE
    modifies msg
    ensures msg[..] == old(msg[..])
    ensures ok == Intact(msg[..], len)
  {
    hide Checksum, Value, Crc32;
    ghost var was := msg[..];
    var saved := Get32(msg[..], 20);
    Write32(msg, 20, 0);
    assert msg[..] == Zeroed(was) by { ZeroDigits(); hide Digit; }
    var calculated := CrcTable.CalculateCrc32(msg, len, 0);
    CrcValue(msg[..len]);
    Write32(msg, 20, saved);
    assert msg[..] == was by { DigitsOfValue(was[20], was[21], was[22], was[23]); hide Digit; }
    if calculated as int != saved {
      return false;
    }
    if Get32(msg[..], 0) != MAGIC {
      return false;
    }
    if len != HEADER_SIZE + Get32(msg[..], 28) {
      return false;
    }
    if Get32(msg[..], 8) <= Get32(msg[..], 24) {
      return false;
    }
    return true;
  }

  /** Sending the sealed buffer up to the payload's end sends the packed datagram. */
  lemma SealedPrefix(h: Header, rest: seq<Byte>, n: nat)
    requires h.pl <= n <= |rest| && Wellsized(h)
    ensures (Layout(Seal(h, rest)) + rest)[..HEADER_SIZE + n] == Packed(h, rest[..n])
  {
    hide Checksum, Layout;
    assert rest[..n][..h.pl] == rest[..h.pl];
  }
}
