/** The receiver as it meets an honest sender's datagrams: what it knows, and what it has on disk. */
module ClientView {
  import opened Wrappers
  import opened Words
  import opened Frame
  import opened BitwiseCrc
  import opened Segments
  import S = Sender
  import opened Receiver
  import opened ReceiverSafety

  /** The part of the file the sender will send: all of it, unless it is 2^32 bytes or longer. */
  function Sendable(j: S.Job): (s: seq<Byte>)
    ensures |s| == S.Size(j) && s == j.file[..S.Size(j)]
  {
    j.file[..S.Size(j)]
  }

  function PrefixFor(j: S.Job, k: nat): seq<Byte> {
    j.file[..Covered(S.Size(j), k)]
  }

  /** A transfer that can be completed at all, as `Completion.CompletableIffDeliverable` shows. */
  predicate Deliverable(j: S.Job) {
    && S.Size(j) > PAYLOAD_SIZE && S.Size(j) % PAYLOAD_SIZE != 0
    && S.Size(j) + PAYLOAD_SIZE - 1 < 0x1_0000_0000
    && Checksum(Sendable(j)) == Checksum(j.file)
  }

  predicate AllIn(c: Client) {
    c.newSize != 0 && c.psn == c.total
  }

  ghost predicate OnDisk(c: Client, j: S.Job) {
    && (c.status == RDY || c.status == DATA ==> c.disk == Some(PrefixFor(j, c.psn)))
    && (c.psn >= 1 ==> c.disk == None || c.disk == Some(PrefixFor(j, c.psn)))
    && (AllIn(c) ==> !c.open && c.disk == Some(Sendable(j)))
  }

  ghost predicate View(c: Client, j: S.Job) {
    && Sound(c)
    && (Underway(c) || c.newSize != 0 ==> c.newVersion == j.version)
    && (c.newSize != 0 ==> c.newSize == S.Size(j) && c.newCrc == Checksum(j.file))
    && (c.psn >= 1 ==> S.Size(j) > PAYLOAD_SIZE && S.Tpn(j) == Packets(S.Size(j)) && c.psn <= c.total)
    && (AllIn(c) ==> S.Size(j) % PAYLOAD_SIZE != 0)
    && OnDisk(c, j)
    && (forall i :: 0 <= i < |c.handed| ==> c.handed[i] == Delivery(Some(Sendable(j)), j.version))
  }

  lemma FreshView(j: S.Job, version: u32, leftover: Option<seq<Byte>>)
    ensures View(Fresh(version, leftover), j)
  {
    hide Checksum;
  }

  // ---- The server's frames, read by the receiver ----

  lemma ServerFrameReads(j: S.Job, id: MessageId, tpl: u32, psn: u32, payload: seq<Byte>, m: Buffer, len: nat)
    requires S.ServerHeader(j, id, tpl, psn).pl <= |payload| <= PAYLOAD_SIZE
    requires Holds(m, len, S.ServerFrame(j, id, tpl, psn, payload))
    ensures len == HEADER_SIZE + |payload| && Payload(m, len) == payload
    ensures IdOf(Get32(m, 16)) == Some(id) && Get32(m, 24) == psn && Get32(m, 8) == S.ServerHeader(j, id, tpl, psn).tpn
    ensures Intact(m, len) <==>
              |payload| == S.ServerHeader(j, id, tpl, psn).pl && psn < S.ServerHeader(j, id, tpl, psn).tpn
  {
    hide Checksum, Packed, Intact, Get32, Packets, Read;
    var h := S.ServerHeader(j, id, tpl, psn);
    Unpack(m, len, h, payload);
    ReadFields(m);
    IdOfCode(id);
  }

  lemma NtfReads(j: S.Job, m: Buffer, len: nat)
    requires Holds(m, len, S.NtfFrame(j))
    ensures Intact(m, len) && IdOf(Get32(m, 16)) == Some(NTF) && len == HEADER_SIZE + 4 && Get32(m, 32) == j.version
  {
    hide S.ServerFrame, Get32, Intact, Put32;
    ServerFrameReads(j, NTF, 4, 0, Put32(j.version), m, len);
    PayloadWord(m, len, j.version);
  }

  lemma InfoReads(j: S.Job, m: Buffer, len: nat)
    requires Holds(m, len, S.InfoFrame(j))
    ensures Intact(m, len) && IdOf(Get32(m, 16)) == Some(INFO) && len == HEADER_SIZE + 12
    ensures Get32(m, 32) == j.version && Get32(m, 36) == S.Size(j) && Get32(m, 40) == Checksum(j.file)
  {
    hide S.ServerFrame, Get32, Intact, Put32, Checksum;
    ServerFrameReads(j, INFO, 12, 0, Put32(j.version) + Put32(S.Size(j)) + Put32(Checksum(j.file)), m, len);
    PayloadWords(m, len, j.version, S.Size(j), Checksum(j.file));
  }

  lemma FinReads(j: S.Job, m: Buffer, len: nat)
    requires Holds(m, len, S.FinFrame(j))
    ensures Intact(m, len) && IdOf(Get32(m, 16)) == Some(FIN) && len == HEADER_SIZE
  {
    hide S.ServerFrame, Get32, Intact;
    ServerFrameReads(j, FIN, 0, 0, [], m, len);
  }

  lemma CxlReads(j: S.Job, m: Buffer, len: nat)
    requires Holds(m, len, S.CxlFrame(j))
    ensures Intact(m, len) && IdOf(Get32(m, 16)) == Some(CXL) && len == HEADER_SIZE
  {
    hide S.ServerFrame, Get32, Intact;
    ServerFrameReads(j, CXL, 0, 0, [], m, len);
  }

  /** A DATA frame passes the integrity check unless it is the last of a file whose size is a
      multiple of 1408: then its length field says 0 and its payload is full. */
  lemma DataReads(j: S.Job, p: u32, m: Buffer, len: nat)
    requires p < S.Tpn(j) && S.Readable(j, p) && Holds(m, len, S.DataFrame(j, p))
    ensures IdOf(Get32(m, 16)) == Some(DATA) && Get32(m, 24) == p && Get32(m, 8) == Packets(S.Size(j)) == S.Tpn(j)
    ensures len == HEADER_SIZE + Length(S.Size(j), p) && Payload(m, len) == Chunk(j.file, p)
    ensures Intact(m, len) <==> p + 1 < S.Tpn(j) || S.Size(j) % PAYLOAD_SIZE != 0
  {
    hide S.ServerFrame, Get32, Intact, Payload, Chunk;
    CountsAgree(S.Size(j));
    ChunkInBounds(S.Size(j), p);
    ChunkIs(j.file, p);
    ServerFrameReads(j, DATA, S.Size(j), p, Chunk(j.file, p), m, len);
    hide SenderPackets, Offset, Length;
    LastLength(S.Size(j), p);
  }

  lemma ChunkIs(file: seq<Byte>, p: u32)
    requires p < SenderPackets(Low32(|file|))
    ensures Offset(p) + Length(Low32(|file|), p) <= |file|
    ensures Chunk(file, p) == file[Offset(p)..Offset(p) + Length(Low32(|file|), p)]
        && |Chunk(file, p)| == Length(Low32(|file|), p)
  {
    ChunkInBounds(Low32(|file|), p);
  }

  lemma LastLength(size: u32, p: u32)
    requires p < SenderPackets(size)
    ensures p + 1 < SenderPackets(size) ==> Length(size, p) == PAYLOAD_SIZE
    ensures p + 1 == SenderPackets(size) ==> (Length(size, p) == size % PAYLOAD_SIZE <==> size % PAYLOAD_SIZE != 0)
    ensures p + 1 == SenderPackets(size) && size % PAYLOAD_SIZE == 0 ==> Length(size, p) == PAYLOAD_SIZE
    ensures size > PAYLOAD_SIZE <==> SenderPackets(size) > 1
  {
    ChunkInBounds(size, p);
    CountsAgree(size);
    if p + 1 == SenderPackets(size) {
      assert size == p * PAYLOAD_SIZE + Length(size, p);
      Remainders(p, Length(size, p));
    }
  }

  lemma Remainders(p: nat, n: nat)
    requires 1 <= n <= PAYLOAD_SIZE
    ensures (p * PAYLOAD_SIZE + n) % PAYLOAD_SIZE == if n == PAYLOAD_SIZE then 0 else n
  {
  }

  // ---- The view is kept ----

  /** An intact buffer holds one of the honest sender's datagrams: DATA only for packets in `data`,
      FIN only if `fin`. */
  ghost predicate Genuine(j: S.Job, data: seq<u32>, fin: bool, m: Buffer, len: nat) {
    || Holds(m, len, S.NtfFrame(j))
    || Holds(m, len, S.InfoFrame(j))
    || Holds(m, len, S.CxlFrame(j))
    || (fin && Holds(m, len, S.FinFrame(j)))
    || exists p: u32 :: p in data && p < S.Tpn(j) && S.Readable(j, p) && Holds(m, len, S.DataFrame(j, p))
  }

  /** What one step may do: keep the view; store at most the next packet, and only one that was
      sent; deliver only after FIN was sent. */
  ghost predicate Kept(c: Client, d: Client, j: S.Job, data: seq<u32>, fin: bool) {
    && View(d, j)
    && (d.psn == c.psn || d.psn == 0 || (d.psn == c.psn + 1 && c.psn in data))
    && (d.handed == c.handed || fin)
  }

  lemma KeptCancel(c: Client, j: S.Job, data: seq<u32>, fin: bool)
    requires View(c, j)
    ensures Kept(c, Cancel(c), j, data, fin) && Kept(c, OnCxl(c), j, data, fin) && Kept(c, SayRtx(c), j, data, fin)
  {
    hide Checksum, Packets, SenderPackets, ClientCxlFrame, RtxFrame;
  }

  lemma KeptInfo(c: Client, j: S.Job, data: seq<u32>, fin: bool, m: Buffer, io: Io)
    requires View(c, j) && Underway(c)
    requires Get32(m, 32) == j.version && Get32(m, 36) == S.Size(j) && Get32(m, 40) == Checksum(j.file)
    ensures Kept(c, OnInfo(c, m, 12, io), j, data, fin)
  {
    hide Checksum, SenderPackets, Packets, ClientCxlFrame, RdyFrame, Get32;
    PacketsInRange(S.Size(j));
    KeptCancel(c, j, data, fin);
    assert j.file[..0] == [];
  }

  lemma KeptFin(c: Client, j: S.Job, data: seq<u32>, m: Buffer)
    requires View(c, j) && Underway(c)
    ensures Kept(c, OnFin(c, 0), j, data, true)
  {
    hide Checksum, SenderPackets, Packets, ClientCxlFrame;
    KeptCancel(c, j, data, true);
  }

  /** The next chunk extends the prefix on disk; the last one makes it the whole. */
  lemma PrefixGrows(j: S.Job, p: u32)
    requires p < S.Tpn(j)
    ensures PrefixFor(j, p) + Chunk(j.file, p) == PrefixFor(j, p + 1)
    ensures p + 1 == S.Tpn(j) ==> PrefixFor(j, p + 1) == Sendable(j)
  {
    hide SenderPackets, Chunk;
    NextChunk(j.file, p);
    ChunkInBounds(S.Size(j), p);
  }

  lemma KeptData(c: Client, j: S.Job, data: seq<u32>, fin: bool, p: u32, m: Buffer, len: nat, io: Io)
    requires View(c, j) && Underway(c) && Intact(m, len)
    requires p in data && p < S.Tpn(j) && S.Readable(j, p) && Holds(m, len, S.DataFrame(j, p))
    ensures Kept(c, OnData(c, m, len, io), j, data, fin)
  {
    hide Intact, Checksum, SenderPackets, Packets, ClientCxlFrame, RtxFrame, DoneFrame, Get32, Payload, Chunk,
      Length, Covered, S.Readable, S.DataFrame, S.NtfFrame;
    PacketsInRange(S.Size(j));
    DataReads(j, p, m, len);
    LastLength(S.Size(j), p);
    PrefixGrows(j, p);
    KeptCancel(c, j, data, fin);
    SoundData(c, m, len, io);
  }

  lemma KeptArrive(c: Client, j: S.Job, data: seq<u32>, fin: bool, m: Buffer, len: nat, io: Io)
    requires View(c, j) && (Intact(m, len) ==> Genuine(j, data, fin, m, len))
    ensures Kept(c, Step(c, Arrive(m, len, io)), j, data, fin)
  {
    hide Intact, Checksum, SenderPackets, Packets, Get32, Cancel, SayRtx, OnInfo, OnData, OnFin, OnCxl, View,
      S.NtfFrame, S.InfoFrame, S.FinFrame, S.CxlFrame, S.DataFrame, S.Readable;
    if Intact(m, len) && c.active && c.listening {
      IntactLength(m, len);
      ViewUnderway(c, j);
      KeptCancel(c, j, data, fin);
      if Holds(m, len, S.NtfFrame(j)) {
        NtfReads(j, m, len);
      } else if Holds(m, len, S.InfoFrame(j)) {
        InfoReads(j, m, len);
        KeptInfo(c, j, data, fin, m, io);
      } else if Holds(m, len, S.CxlFrame(j)) {
        CxlReads(j, m, len);
      } else if fin && Holds(m, len, S.FinFrame(j)) {
        FinReads(j, m, len);
        KeptFin(c, j, data, m);
      } else {
        var p: u32 :| p in data && p < S.Tpn(j) && S.Readable(j, p) && Holds(m, len, S.DataFrame(j, p));
        DataReads(j, p, m, len);
        KeptData(c, j, data, fin, p, m, len, io);
      }
    }
  }

  lemma ViewUnderway(c: Client, j: S.Job)
    requires View(c, j)
    ensures Underway(c) <==> c.active && c.listening
  {
    hide Checksum;
  }

  /** At the well-known port: a genuine NTF starts over; anything else, or a damaged one, at most
      resets the session's fields. */
  lemma KeptKnock(c: Client, j: S.Job, data: seq<u32>, fin: bool, m: Buffer, len: nat)
    requires View(c, j) && (Intact(m, len) ==> Genuine(j, data, fin, m, len))
    ensures Kept(c, Step(c, Knock(m, len)), j, data, fin)
  {
    hide Checksum, SenderPackets, Packets, Get32, ClientCxlFrame, ChkFrame, OnInfo, OnData, OnFin, OnCxl, Intact,
      S.NtfFrame, S.InfoFrame, S.FinFrame, S.CxlFrame, S.DataFrame, S.Readable;
    if IsNtf(m) && Intact(m, len) {
      GenuineNtf(j, data, fin, m, len);
    }
    hide Genuine;
  }

  lemma GenuineNtf(j: S.Job, data: seq<u32>, fin: bool, m: Buffer, len: nat)
    requires Genuine(j, data, fin, m, len) && IsNtf(m)
    ensures Get32(m, 32) == j.version && len == HEADER_SIZE + 4
  {
    hide Intact, Get32, S.NtfFrame, S.InfoFrame, S.FinFrame, S.CxlFrame, S.DataFrame, S.Readable, SenderPackets;
    if Holds(m, len, S.NtfFrame(j)) {
      NtfReads(j, m, len);
    } else if Holds(m, len, S.InfoFrame(j)) {
      InfoReads(j, m, len);
    } else if Holds(m, len, S.CxlFrame(j)) {
      CxlReads(j, m, len);
    } else if fin && Holds(m, len, S.FinFrame(j)) {
      FinReads(j, m, len);
    } else {
      var p: u32 :| p in data && p < S.Tpn(j) && S.Readable(j, p) && Holds(m, len, S.DataFrame(j, p));
      DataReads(j, p, m, len);
    }
  }
}
