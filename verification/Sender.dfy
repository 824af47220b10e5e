/** The sending side: `ServerTransaction` (src/server/server_transaction.cpp) together with the
    handshake driver `StartFileTransfer` and `AbortFileTransfer` (src/server/server.cpp).

    Four threads share the atomics `status_`, `packet_sequence_number_` and `retransmit_psn_`: the
    driver, the dispatcher that runs `OnReceive`, the send loop, and callers of abort. Each has a
    program counter, and one action is at most one access to a shared atomic. A lock is never held
    across two of them, so any order of actions is possible. */
module Sender {
  import opened Wrappers
  import opened Words
  import opened Frame
  import opened BitwiseCrc
  import opened Segments

  /** What is to be sent: the file, its version, the device id. */
  datatype Job = Job(file: seq<Byte>, version: u32, device: u32)

  function Size(j: Job): u32 { Low32(|j.file|) }

  function Tpn(j: Job): u32 { SenderPackets(Size(j)) }

  const NO_PSN: u32 := 0xFFFF_FFFF

  // ---- Messages ----

  function ServerHeader(j: Job, id: MessageId, tpl: u32, psn: u32): Header {
    PacketsInRange(tpl);
    var tpn := if tpl == 0 then 1 else Packets(tpl);
    var pl := if psn == tpn - 1 then tpl % PAYLOAD_SIZE else PAYLOAD_SIZE;
    Header(MAGIC, 0xFD00, j.device % 0x1_0000, tpn, tpl, Code(id), 0, psn, pl)
  }

  function ServerFrame(j: Job, id: MessageId, tpl: u32, psn: u32, payload: seq<Byte>): Datagram
    requires ServerHeader(j, id, tpl, psn).pl <= |payload|
  {
    Packed(ServerHeader(j, id, tpl, psn), payload)
  }

  function NtfFrame(j: Job): Datagram { ServerFrame(j, NTF, 4, 0, Put32(j.version)) }

  function InfoFrame(j: Job): Datagram {
    ServerFrame(j, INFO, 12, 0, Put32(j.version) + Put32(Size(j)) + Put32(Checksum(j.file)))
  }

  function FinFrame(j: Job): Datagram { ServerFrame(j, FIN, 0, 0, []) }

  function CxlFrame(j: Job): Datagram { ServerFrame(j, CXL, 0, 0, []) }

  /** The send loop can read the chunk it is at, and its header announces no more than was read. */
  predicate Readable(j: Job, psn: u32) {
    && Offset(psn) + Length(Size(j), psn) <= |j.file|
    && Length(Size(j), psn) <= PAYLOAD_SIZE
    && ServerHeader(j, DATA, Size(j), psn).pl <= Length(Size(j), psn)
  }

  function DataFrame(j: Job, psn: u32): Datagram
    requires Readable(j, psn)
  {
    ServerFrame(j, DATA, Size(j), psn, j.file[Offset(psn)..Offset(psn) + Length(Size(j), psn)])
  }

  // ---- State ----

  datatype Stage = Notify | Inform | Transfer

  function StageId(stage: Stage): MessageId {
    match stage case Notify => NTF case Inform => INFO case Transfer => DATA
  }

  function Awaited(stage: Stage): MessageId {
    match stage case Notify => CHK case Inform => RDY case Transfer => DONE
  }

  datatype DriverPc =
    | Store(stage: Stage)                   // SendMessage: about to store the status
    | Emit(stage: Stage)                    // SendMessage: about to send, or to start the loop
    | Enter(stage: Stage)                   // WaitForStatus: about to sample the old status
    | Waiting(stage: Stage, seen: MessageId) // WaitForStatus: until the status differs, or time is up
    | Woken(stage: Stage)                   // WaitForStatus: about to read the status it returns
    | CancelStore | CancelEmit
    | FinStore | FinEmit
    | Returned(result: MessageId)

  datatype DispatchPc =
    | Idle
    | PsnForDone(n: nat, version: u32, size: u32, crc: u32) // OnReceive: DONE, about to read the psn
    | PsnForRtx(n: nat, target: u32)                        // OnReceive: RTX, about to read the psn
    | StoreStatus(id: MessageId)
    | StoreRtx(target: u32)

  datatype LoopPc =
    | NotStarted | Opening | Reset
    | Guard | CheckCancel | CheckRetransmit | TakeRetransmit | StoreRetransmit(target: u32)
    | Send | TailCheck | TailTake | TailStore(target: u32) | Increment
    | Failing | FailEmit
    | Finished | Cancelled | Failed

  datatype Sender = Sender(
    job: Job, status: MessageId, psn: u32, rtx: u32, curVersion: u32, gap: u32,
    driver: DriverPc, dispatch: DispatchPc, loop: LoopPc, aborts: nat, sent: seq<Datagram>)

  function Start(j: Job): Sender {
    Sender(j, NTF, 0, NO_PSN, 0, 100, Store(Notify), Idle, NotStarted, 0, [])
  }

  // ---- The driver ----

  /** `StartFileTransfer` after a `WaitForStatus`; `None` is its timeout. */
  function AfterWait(stage: Stage, got: Option<MessageId>): DriverPc {
    if stage == Notify && got == None then Returned(NTF)
    else if got == Some(CXL) then Returned(CXL)
    else if got != Some(Awaited(stage)) then CancelStore
    else match stage case Notify => Store(Inform) case Inform => Store(Transfer) case Transfer => FinStore
  }

  function DriverStep(s: Sender, timeUp: bool): Sender {
    match s.driver
    case Store(stage) => s.(status := StageId(stage), driver := Emit(stage))
    case Emit(Notify) => s.(sent := s.sent + [NtfFrame(s.job)], driver := Enter(Notify))
    case Emit(Inform) => s.(sent := s.sent + [InfoFrame(s.job)], driver := Enter(Inform))
    case Emit(Transfer) => s.(loop := Opening, driver := Enter(Transfer))
    case Enter(stage) => s.(driver := Waiting(stage, s.status))
    case Waiting(stage, seen) =>
      if s.status != seen then s.(driver := Woken(stage))
      else if timeUp then s.(driver := AfterWait(stage, None))
      else s
    case Woken(stage) => s.(driver := AfterWait(stage, Some(s.status)))
    case CancelStore => s.(status := CXL, driver := CancelEmit)
    case CancelEmit => s.(sent := s.sent + [CxlFrame(s.job)], driver := Returned(CXL))
    case FinStore => s.(status := FIN, driver := FinEmit)
    case FinEmit => s.(sent := s.sent + [FinFrame(s.job)], driver := Returned(FIN))
    case Returned(_) => s
  }

  // ---- The dispatcher ----

  /** The nearest gap to `x` that the sender is willing to keep. */
  function Clamp(x: u32): (r: u32)
    ensures 100 <= r <= 300
    ensures 100 <= x <= 300 ==> r == x
    ensures (r == 100 ==> x <= 100) && (r == 300 ==> x >= 300)
  {
    if x < 100 then 100 else if x > 300 then 300 else x
  }

  /** `OnReceive` up to and including its first look at the status. */
  function Receive(s: Sender, m: Buffer, len: nat): Sender {
    if !Intact(m, len) then s
    else
      var n := len - HEADER_SIZE;
      match IdOf(Get32(m, 16))
      case Some(CHK) =>
        if s.status != NTF || n != 4 then s
        else s.(curVersion := Get32(m, 32), dispatch := StoreStatus(CHK))
      case Some(RDY) =>
        if s.status != INFO || n != 12 then s
        else s.(gap := Clamp(Get32(m, 40)), dispatch := StoreStatus(RDY))
      case Some(DONE) =>
        if s.status != DATA then s
        else s.(dispatch := PsnForDone(n, Get32(m, 32), Get32(m, 36), Get32(m, 40)))
      case Some(CXL) =>
        if n != 0 then s else s.(dispatch := StoreStatus(CXL))
      case Some(RTX) =>
        if s.status != DATA then s else s.(dispatch := PsnForRtx(n, Get32(m, 32)))
      case _ => s
  }

  function CheckPsn(s: Sender): Sender {
    match s.dispatch
    case PsnForDone(n, version, size, crc) =>
      if s.psn != Tpn(s.job) then s.(dispatch := Idle)
      else if n != 12 || version != s.job.version || size != Size(s.job)
        || crc != Checksum(s.job.file) then s.(dispatch := Idle)
      else s.(dispatch := StoreStatus(DONE))
    case PsnForRtx(n, target) =>
      if n != 4 || target > s.psn then s.(dispatch := Idle) else s.(dispatch := StoreRtx(target))
    case _ => s
  }

  function StoreResult(s: Sender): Sender {
    match s.dispatch
    case StoreStatus(id) => s.(status := id, dispatch := Idle)
    case StoreRtx(target) => s.(rtx := target, dispatch := Idle)
    case _ => s
  }

  // ---- The send loop ----

  /** `io` says whether opening or reading the file succeeds. Only the loop writes the psn, so its
      own reads of it are not separate actions. */
  function LoopStep(s: Sender, io: bool): Sender {
    match s.loop
    case Opening => s.(loop := if io then Reset else Failing)
    case Reset => s.(psn := 0, loop := Guard)
    case Guard => s.(loop := if s.psn < Tpn(s.job) then CheckCancel else Finished)
    case CheckCancel => s.(loop := if s.status == CXL then Cancelled else CheckRetransmit)
    case CheckRetransmit => s.(loop := if s.rtx != NO_PSN then TakeRetransmit else Send)
    case TakeRetransmit => s.(rtx := NO_PSN, loop := StoreRetransmit(s.rtx))
    case StoreRetransmit(target) => s.(psn := target, loop := Send)
    case Send =>
      if io && Readable(s.job, s.psn) then
        s.(sent := s.sent + [DataFrame(s.job, s.psn)], loop := if s.psn + 1 == Tpn(s.job) then TailCheck else Increment)
      else s.(loop := Failing)
    case TailCheck => s.(loop := if s.rtx != NO_PSN then TailTake else Increment)
    case TailTake => s.(rtx := NO_PSN, loop := TailStore(s.rtx))
    case TailStore(target) => s.(psn := target, loop := Increment)
    case Increment => s.(psn := Low32(s.psn + 1), loop := Guard)
    case Failing => s.(status := CXL, loop := FailEmit)
    case FailEmit => s.(sent := s.sent + [CxlFrame(s.job)], loop := Failed)
    case _ => s
  }

  // ---- All of them ----

  datatype Action =
    | Drive(timeUp: bool)
    | Take(m: Buffer, len: nat) // the dispatcher takes a datagram
    | Check
    | Result
    | Abort | AbortEmit
    | Loop(io: bool)

  /** An action that is not enabled changes nothing. */
  function Step(s: Sender, a: Action): Sender {
    match a
    case Drive(timeUp) => DriverStep(s, timeUp)
    case Take(m, len) => if s.dispatch.Idle? then Receive(s, m, len) else s
    case Check => CheckPsn(s)
    case Result => StoreResult(s)
    case Abort => if s.driver.Returned? then s else s.(status := CXL, aborts := s.aborts + 1)
    case AbortEmit => if s.aborts == 0 then s else s.(sent := s.sent + [CxlFrame(s.job)], aborts := s.aborts - 1)
    case Loop(io) => LoopStep(s, io)
  }

  function Run(s: Sender, acts: seq<Action>): Sender {
    if acts == [] then s else Step(Run(s, acts[..|acts| - 1]), acts[|acts| - 1])
  }

  lemma RunMore(s: Sender, acts: seq<Action>, a: Action)
    ensures Run(s, acts + [a]) == Step(Run(s, acts), a)
  {
    hide Step;
    assert (acts + [a])[..|acts + [a]| - 1] == acts;
  }

  lemma {:induction false} RunOn(s: Sender, acts: seq<Action>, more: seq<Action>)
    ensures Run(s, acts + more) == Run(Run(s, acts), more)
  {
    hide Step;
    if more == [] {
      assert acts + more == acts;
    } else {
      assert (acts + more)[..|acts + more| - 1] == acts + more[..|more| - 1];
      RunOn(s, acts, more[..|more| - 1]);
    }
  }
}
