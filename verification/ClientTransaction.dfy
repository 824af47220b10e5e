/** `ClientTransaction` as the object it is: fields that its methods update. Each method is proved to
    take the state to what the functions of `Receiver` say. */
module ClientTransactions {
  import opened Wrappers
  import opened Words
  import opened Frame
  import opened BitwiseCrc
  import CrcTable
  import R = Receiver

  class ClientTransaction {
    const curVersion: u32
    const gap: u32
    var isActive: bool
    var listening: bool
    var status: MessageId
    var totalPacketNumber: nat
    var packetSequenceNumber: u32
    var streamOpen: bool
    var file: Option<seq<Byte>>
    var newFileVersion: u32
    var newFileSize: u32
    var newFileCrc32: u32
    var sent: seq<Datagram>
    var handed: seq<R.Delivery>

    ghost function State(): R.Client
      reads this
    {
      R.Client(curVersion, gap, isActive, listening, status, totalPacketNumber, packetSequenceNumber, streamOpen, file,
               newFileVersion, newFileSize, newFileCrc32, sent, handed)
    }

    constructor (curVersion: u32, leftover: Option<seq<Byte>>)
      ensures State() == R.Fresh(curVersion, leftover)
    {
      this.curVersion, gap := curVersion, 100;
      isActive, listening, status := false, false, FIN;
      totalPacketNumber, packetSequenceNumber := 0, 0;
      streamOpen, file := false, leftover;
      newFileVersion, newFileSize, newFileCrc32 := 0, 0, 0;
      sent, handed := [], [];
    }

    method Reset()
      modifies this
      ensures State() == R.Reset(old(State()))
    {
      totalPacketNumber := 0;
      packetSequenceNumber := 0;
      streamOpen := false;
      newFileVersion := 0;
      newFileSize := 0;
      newFileCrc32 := 0;
      listening := false;
    }

    method SendMessage(id: MessageId)
      modifies this
      ensures State() == R.Say(old(State()), id)
    {
      hide Checksum, Digit, Layout, Put32, Packed;
      if id !in {CHK, RDY, RTX, DONE, CXL} {
        return;
      }
      var payload: seq<Byte> := [];
      match id {
        case CHK =>
          status := id;
          payload := Put32(curVersion);
        case RDY =>
          status := id;
          payload := Put32(newFileVersion) + Put32(newFileSize) + Put32(gap);
        case DONE =>
          status := id;
          payload := Put32(newFileVersion) + Put32(newFileSize) + Put32(newFileCrc32);
        case CXL =>
          status := id;
          isActive := false;
        case RTX =>
          payload := Put32(packetSequenceNumber);
      }
      var d := Build(id, payload);
      sent := sent + [d];
    }

    /** Fills a fresh message with the payload, seals its header, and takes the bytes to send. */
    static method Build(id: MessageId, payload: seq<Byte>) returns (d: Datagram)
      requires |payload| <= PAYLOAD_SIZE
      ensures d == R.ClientFrame(id, payload)
    {
      hide Checksum, Digit, Layout, Packed, Seal;
      var msg := new Byte[MESSAGE_SIZE];
      forall k | 0 <= k < |payload| {
        msg[HEADER_SIZE + k] := payload[k];
      }
      ghost var rest := msg[HEADER_SIZE..];
      assert rest[..|payload|] == payload;
      SealInPlace(msg, R.ClientHeader(id, |payload|));
      SealedPrefix(R.ClientHeader(id, |payload|), rest, |payload|);
      d := msg[..HEADER_SIZE + |payload|];
    }

    method OnReceive(msg: array<Byte>, len: nat, io: R.Io)
      requires msg.Length == MESSAGE_SIZE && len <= MESSAGE_SIZE
      modifies this, msg
      ensures msg[..] == old(msg[..])
      ensures State() == R.Handle(old(State()), old(msg[..]), len, io)
    {
      hide Intact, Checksum, Value, Get32, R.SayChk, R.SayRdy, R.SayRtx, R.SayDone, R.Cancel, R.OnInfo, R.OnData;
      var ok := ValidateMessageIntegrity(msg, len);
      if !ok {
        return;
      }
      IntactLength(msg[..], len);
      var payloadLen := len - HEADER_SIZE;
      match IdOf(Get32(msg[..], 16)) {
        case Some(NTF) =>
          if payloadLen != 4 {
            SendMessage(CXL);
            return;
          }
          status := NTF;
          newFileVersion := Get32(msg[..], 32);
          listening := true;
          SendMessage(CHK);

        case Some(INFO) =>
          OnInfo(msg, payloadLen, io);

        case Some(DATA) =>
          OnData(msg, len, io);

        case Some(FIN) =>
          if status != DONE {
            SendMessage(CXL);
            return;
          }
          if payloadLen != 0 {
            SendMessage(CXL);
            return;
          }
          status := FIN;
          isActive := false;
          handed := handed + [R.Delivery(file, newFileVersion)];

        case Some(CXL) =>
          if streamOpen {
            streamOpen := false;
            file := None;
          }
          status := CXL;
          SendMessage(CXL);

        case _ =>
      }
    }

    /** The INFO case of `OnReceive`. */
    method OnInfo(msg: array<Byte>, payloadLen: nat, io: R.Io)
      requires msg.Length == MESSAGE_SIZE
      modifies this
      ensures State() == R.OnInfo(old(State()), msg[..], payloadLen, io)
    {
      hide Checksum, Value, Get32, R.SayChk, R.SayRdy, R.SayRtx, R.SayDone, R.Cancel;
      if status != CHK {
        SendMessage(CXL);
        return;
      }
      if payloadLen != 12 {
        SendMessage(CXL);
        return;
      }
      if newFileVersion != Get32(msg[..], 32) {
        SendMessage(CXL);
        return;
      }
      if Get32(msg[..], 36) == 0 {
        SendMessage(CXL);
        return;
      }
      status := INFO;
      newFileSize := Get32(msg[..], 36);
      newFileCrc32 := Get32(msg[..], 40);
      totalPacketNumber := (newFileSize + PAYLOAD_SIZE - 1) / PAYLOAD_SIZE;
      if !io.opens {
        SendMessage(CXL);
        return;
      }
      streamOpen := true;
      file := Some([]);
      SendMessage(RDY);
    }

    /** The DATA case of `OnReceive`. */
    method OnData(msg: array<Byte>, len: nat, io: R.Io)
      requires msg.Length == MESSAGE_SIZE && HEADER_SIZE <= len <= MESSAGE_SIZE
      modifies this
      ensures State() == R.OnData(old(State()), msg[..], len, io)
    {
      hide Intact, Checksum, Value, Get32, R.SayChk, R.SayRdy, R.SayRtx, R.SayDone, R.Cancel, R.Complete;
      var payloadLen := len - HEADER_SIZE;
      var psn: int, tpn: int := Get32(msg[..], 24), Get32(msg[..], 8);
      if psn == 0 {
        if status != RDY {
          SendMessage(CXL);
          return;
        }
        if payloadLen != PAYLOAD_SIZE {
          SendMessage(CXL);
          return;
        }
      } else if psn < tpn - 1 {
        if status != DATA {
          SendMessage(CXL);
          return;
        }
        if payloadLen != PAYLOAD_SIZE {
          SendMessage(CXL);
          return;
        }
      } else {
        if status != DATA {
          SendMessage(CXL);
          return;
        }
        if payloadLen != newFileSize % PAYLOAD_SIZE {
          SendMessage(CXL);
          return;
        }
      }
      if psn != packetSequenceNumber {
        SendMessage(RTX);
        return;
      }
      if !io.writes || !streamOpen {
        SendMessage(CXL);
        return;
      }
      file := Some(R.Written(file) + msg[HEADER_SIZE..len]);
      status := DATA;
      packetSequenceNumber := Low32(packetSequenceNumber + 1);
      if packetSequenceNumber == totalPacketNumber {
        CompleteFile();
      }
    }

    /** Size and checksum of what is on disk decide between DONE and CXL. */
    method CompleteFile()
      modifies this
      ensures State() == R.Complete(old(State()))
    {
      hide Crc32, Checksum, R.SayChk, R.SayRdy, R.SayRtx, R.SayDone, R.Cancel, R.FileChecksum;
      streamOpen := false;
      if newFileSize != |R.Written(file)| {
        SendMessage(CXL);
        return;
      }
      var crc := CrcTable.CalculateFileCrc32(file, true, |R.Written(file)|);
      CrcValue(file);
      if newFileCrc32 != crc as int {
        SendMessage(CXL);
        return;
      }
      SendMessage(DONE);
    }

    static lemma CrcValue(file: Option<seq<Byte>>)
      ensures R.FileChecksum(file) == (if file.Some? then Crc32(file.value, 0) else 0) as int
    {
      if file.Some? {
        hide Crc32;
        Frame.CrcValue(file.value);
      }
    }

    method Begin(msg: array<Byte>, len: nat)
      requires msg.Length == MESSAGE_SIZE && len <= MESSAGE_SIZE
      modifies this, msg
      ensures State() == R.Begin(old(State()), old(msg[..]), len)
    {
      hide R.Handle, Value;
      isActive := IdOf(Get32(msg[..], 16)) == Some(NTF);
      if isActive {
        Reset();
        OnReceive(msg, len, R.Io(true, true));
      }
    }

    /** The receive thread: `inbox` is what the socket yields, one datagram or timeout at a time. Once
        the transaction is no longer active the loop ends and the rest is not looked at. The first NTF
        that is accepted here makes the thread join itself, which ends the program: `read` events were
        handled before it. */
    method HandleIncomingMessages(inbox: seq<R.Event>) returns (fatal: bool, read: nat)
      requires listening
      requires forall i :: 0 <= i < |inbox| ==> !inbox[i].Knock?
      requires forall i :: 0 <= i < |inbox| ==> inbox[i].Arrive? ==> inbox[i].len <= MESSAGE_SIZE
      modifies this
      ensures read <= |inbox| && State() == R.Run(old(State()), inbox[..read])
      ensures fatal ==> read < |inbox| && R.Fatal(State(), inbox[read])
      ensures !fatal ==> State() == R.Run(old(State()), inbox)
      ensures R.NoneFatal(old(State()), inbox, if fatal then read else |inbox|)
    {
      hide R.Handle, R.Cancel, R.JoinsItself, R.Run;
      ghost var start := State();
      read := 0;
      RunNone(start, inbox);
      while isActive && read < |inbox|
        invariant 0 <= read <= |inbox|
        invariant listening
        invariant State() == R.Run(start, inbox[..read]) && R.NoneFatal(start, inbox, read)
      {
        R.RunNext(start, inbox, read);
        match inbox[read] {
          case Silence =>
            R.CancelStops(State());
            SendMessage(CXL);
            read := read + 1;
            break;
          case Arrive(m, len, io) =>
            if R.JoinsItself(m, len) {
              return true, read;
            }
            var msg := new Byte[MESSAGE_SIZE](k requires 0 <= k < MESSAGE_SIZE => m[k]);
            assert msg[..] == m;
            R.HandleKeepsListening(State(), m, len, io);
            OnReceive(msg, len, io);
            read := read + 1;
        }
      }
      assert inbox[..|inbox|] == inbox;
      fatal := false;
      if read < |inbox| {
        R.NoneFatalLater(start, inbox, read);
      }
    }

    static lemma RunNone(c: R.Client, es: seq<R.Event>)
      ensures R.Run(c, es[..0]) == c
    {
      assert es[..0] == [];
    }
  }
}
