/** The receiving side, `ClientTransaction` of `src/client/client_transaction.cpp`, as functions on
    its state. The file system is the content of the temporary file; the socket is the list of
    datagrams sent; the file handler is the list of deliveries made. */
module Receiver {
  import opened Wrappers
  import opened Words
  import opened Frame
  import opened BitwiseCrc
  import opened Segments

  /** What `OnFileReceived` was given: the file's content when it was called, and the version. */
  datatype Delivery = Delivery(content: Option<seq<Byte>>, version: u32)

  datatype Client = Client(
    curVersion: u32, gap: u32,
    active: bool, listening: bool, status: MessageId,
    total: nat, psn: u32,
    open: bool, disk: Option<seq<Byte>>,
    newVersion: u32, newSize: u32, newCrc: u32,
    sent: seq<Datagram>, handed: seq<Delivery>)

  /** Whether opening the file and writing to it succeed, should the step do so. */
  datatype Io = Io(opens: bool, writes: bool)

  datatype Event =
    | Knock(m: Buffer, len: nat)            // a datagram on the client's well-known port
    | Arrive(m: Buffer, len: nat, io: Io)   // a datagram on the transaction's own socket
    | Silence                               // the receive timeout

  function Fresh(curVersion: u32, leftover: Option<seq<Byte>>): Client {
    Client(curVersion, 100, false, false, FIN, 0, 0, false, leftover, 0, 0, 0, [], [])
  }

  // ---- Sending ----

  function ClientHeader(id: MessageId, pl: u32): Header {
    Header(MAGIC, 0, 0xFD00, 1, pl, Code(id), 0, 0, pl)
  }

  function ClientFrame(id: MessageId, payload: seq<Byte>): Datagram
    requires |payload| <= PAYLOAD_SIZE
  {
    Packed(ClientHeader(id, |payload|), payload)
  }

  function ChkFrame(version: u32): Datagram { ClientFrame(CHK, Put32(version)) }

  function RdyFrame(version: u32, size: u32, gap: u32): Datagram {
    ClientFrame(RDY, Put32(version) + Put32(size) + Put32(gap))
  }

  function RtxFrame(psn: u32): Datagram { ClientFrame(RTX, Put32(psn)) }

  function DoneFrame(version: u32, size: u32, crc: u32): Datagram {
    ClientFrame(DONE, Put32(version) + Put32(size) + Put32(crc))
  }

  function ClientCxlFrame(): Datagram { ClientFrame(CXL, []) }

  function SayChk(c: Client): Client { c.(status := CHK, sent := c.sent + [ChkFrame(c.curVersion)]) }

  function SayRdy(c: Client): Client { c.(status := RDY, sent := c.sent + [RdyFrame(c.newVersion, c.newSize, c.gap)]) }

  function SayDone(c: Client): Client { c.(status := DONE,
    sent := c.sent + [DoneFrame(c.newVersion, c.newSize, c.newCrc)]) }

  function SayRtx(c: Client): Client { c.(sent := c.sent + [RtxFrame(c.psn)]) }

  function Cancel(c: Client): Client { c.(status := CXL, active := false, sent := c.sent + [ClientCxlFrame()]) }

  /** `SendMessage`: anything but these five is refused. */
  function Say(c: Client, id: MessageId): Client {
    match id
    case CHK => SayChk(c)
    case RDY => SayRdy(c)
    case DONE => SayDone(c)
    case RTX => SayRtx(c)
    case CXL => Cancel(c)
    case _ => c
  }

  lemma ClientFrameId(id: MessageId, payload: seq<Byte>)
    requires |payload| <= PAYLOAD_SIZE
    ensures |ClientFrame(id, payload)| == HEADER_SIZE + |payload|
        && IdOf(Get32(ClientFrame(id, payload), 16)) == Some(id)
  {
    hide Packed, Get32, Code, IdOf;
    PackedId(ClientHeader(id, |payload|), payload);
    IdOfCode(id);
  }

  // ---- Receiving ----

  function Reset(c: Client): Client {
    c.(total := 0, psn := 0, open := false, newVersion := 0, newSize := 0, newCrc := 0, listening := false)
  }

  function FileChecksum(file: Option<seq<Byte>>): u32 {
    if file.Some? then Checksum(file.value) else 0
  }

  function Written(file: Option<seq<Byte>>): seq<Byte> {
    if file.Some? then file.value else []
  }

  function OnNtf(c: Client, m: Buffer, n: nat): Client {
    if n != 4 then Cancel(c)
    else SayChk(c.(status := NTF, newVersion := Get32(m, 32), listening := true))
  }

  function OnInfo(c: Client, m: Buffer, n: nat, io: Io): Client {
    if c.status != CHK || n != 12 || c.newVersion != Get32(m, 32) || Get32(m, 36) == 0 then Cancel(c)
    else
      var size := Get32(m, 36);
      var d := c.(status := INFO, newSize := size, newCrc := Get32(m, 40), total := Packets(size));
      if io.opens then SayRdy(d.(open := true, disk := Some([]))) else Cancel(d)
  }

  /** The payload length a DATA packet must have: the last of its announced `tpn` is the remainder. */
  function ExpectedLength(psn: u32, tpn: u32, size: u32): nat {
    if psn == 0 || psn < tpn - 1 then PAYLOAD_SIZE else size % PAYLOAD_SIZE
  }

  function OnData(c: Client, m: Buffer, len: nat, io: Io): Client
    requires HEADER_SIZE <= len <= MESSAGE_SIZE
  {
    var psn, tpn := Get32(m, 24), Get32(m, 8);
    if c.status != (if psn == 0 then RDY else DATA) then Cancel(c)
    else if len - HEADER_SIZE != ExpectedLength(psn, tpn, c.newSize) then Cancel(c)
    else if psn != c.psn then SayRtx(c)
    else if !io.writes || !c.open then Cancel(c)
    else
      var d := c.(disk := Some(Written(c.disk) + Payload(m, len)), status := DATA, psn := Low32(c.psn + 1));
      if d.psn == d.total then Complete(d) else d
  }

  /** All packets are in: check size and checksum of what is on disk before DONE. */
  function Complete(c: Client): Client {
    var d := c.(open := false);
    if |Written(d.disk)| != d.newSize then Cancel(d)
    else if FileChecksum(d.disk) != d.newCrc then Cancel(d)
    else SayDone(d)
  }

  function OnFin(c: Client, n: nat): Client {
    if c.status != DONE || n != 0 then Cancel(c)
    else c.(status := FIN, active := false, handed := c.handed + [Delivery(c.disk, c.newVersion)])
  }

  function OnCxl(c: Client): Client {
    var d := if c.open then c.(open := false, disk := None) else c;
    Cancel(d.(status := CXL))
  }

  /** `OnReceive`. */
  function Handle(c: Client, m: Buffer, len: nat, io: Io): Client {
    if !Intact(m, len) then c
    else
      var n := len - HEADER_SIZE;
      match IdOf(Get32(m, 16))
      case Some(NTF) => OnNtf(c, m, n)
      case Some(INFO) => OnInfo(c, m, n, io)
      case Some(DATA) => OnData(c, m, len, io)
      case Some(FIN) => OnFin(c, n)
      case Some(CXL) => OnCxl(c)
      case _ => c
  }

  predicate IsNtf(m: Buffer) { IdOf(Get32(m, 16)) == Some(NTF) }

  /** `Begin`: only an NTF starts a session, whatever its checksum says. */
  function Begin(c: Client, m: Buffer, len: nat): Client {
    if IsNtf(m) then Handle(Reset(c.(active := true)), m, len, Io(true, true)) else c.(active := false)
  }

  /** An NTF that the receive thread would accept: it would then join itself, which ends the program. */
  predicate JoinsItself(m: Buffer, len: nat) {
    IsNtf(m) && Intact(m, len) && len == HEADER_SIZE + 4
  }

  predicate Fatal(c: Client, e: Event) {
    e.Arrive? && c.active && c.listening && JoinsItself(e.m, e.len)
  }

  /** One turn of either receive loop. While a transaction is alive the well-known port discards;
      the transaction's socket is read by the thread an accepted NTF starts. A
      fatal event, after which nothing more happens, is passed over. */
  function Step(c: Client, e: Event): Client {
    match e
    case Knock(m, len) => if c.active then c else Begin(c, m, len)
    case Arrive(m, len, io) => if c.active && c.listening && !JoinsItself(m, len) then Handle(c, m, len, io) else c
    case Silence => if c.active && c.listening then Cancel(c) else c
  }

  function Run(c: Client, es: seq<Event>): Client {
    if es == [] then c else Step(Run(c, es[..|es| - 1]), es[|es| - 1])
  }

  lemma RunNext(c: Client, es: seq<Event>, k: nat)
    requires k < |es|
    ensures Run(c, es[..k + 1]) == Step(Run(c, es[..k]), es[k])
  {
    hide Step;
    assert es[..k + 1][..k] == es[..k];
  }

  /** None of the first `n` events is fatal. */
  predicate NoneFatal(c: Client, es: seq<Event>, n: nat)
    requires n <= |es|
  {
    forall k :: 0 <= k < n ==> !Fatal(Run(c, es[..k]), es[k])
  }

  lemma NoneFatalLater(c: Client, es: seq<Event>, i: nat)
    requires i <= |es| && NoneFatal(c, es, i) && !Run(c, es[..i]).active
    requires forall k :: 0 <= k < |es| ==> !es[k].Knock?
    ensures NoneFatal(c, es, |es|) && Run(c, es) == Run(c, es[..i])
  {
    hide Run, Step, JoinsItself;
    InactiveIgnores(c, es, i);
    forall k | i <= k < |es| ensures Run(c, es[..k]) == Run(c, es[..i]) {
      assert es[..k][..i] == es[..i];
      InactiveIgnores(c, es[..k], i);
    }
  }

  lemma CancelStops(c: Client)
    ensures !Cancel(c).active
  {
  }

  /** Any other NTF at the session's own socket is dropped, or cancels for its length. */
  lemma StrayNtf(c: Client, m: Buffer, len: nat, io: Io)
    requires IsNtf(m) && !JoinsItself(m, len)
    ensures Handle(c, m, len, io) == if Intact(m, len) then Cancel(c) else c
  {
    hide Intact, Get32, ClientCxlFrame, OnInfo, OnData, OnFin, OnCxl;
    if Intact(m, len) {
      IntactLength(m, len);
    }
  }

  lemma HandleKeepsListening(c: Client, m: Buffer, len: nat, io: Io)
    requires !JoinsItself(m, len)
    ensures Handle(c, m, len, io).listening == c.listening
  {
    hide Intact, Checksum, Get32, Payload, ClientCxlFrame, RdyFrame, RtxFrame, DoneFrame, Packets;
  }

  lemma {:induction false} InactiveIgnores(c: Client, es: seq<Event>, i: nat)
    requires i <= |es| && !Run(c, es[..i]).active
    requires forall k :: 0 <= k < |es| ==> !es[k].Knock?
    ensures Run(c, es) == Run(c, es[..i])
  {
    hide Handle, Begin, IsNtf, Cancel;
    if i == |es| {
      assert es[..i] == es;
    } else {
      var before := es[..|es| - 1];
      assert before[..i] == es[..i];
      InactiveIgnores(c, before, i);
    }
  }
}
