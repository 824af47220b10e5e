/** `ServerTransaction`, with the handshake driver that uses it, in the shape of the source. Between
    any two accesses to the shared atomics a method lets the other threads take the steps it is given
    (`Yield`); each method is proved to do exactly what its thread does in `Sender`, interleaved with
    those steps, so everything proved of all runs holds of it. */
module ServerTransactions {
  import opened Wrappers
  import opened Words
  import opened Frame
  import opened BitwiseCrc
  import CrcTable
  import opened Segments
  import S = Sender
  import SenderSafety
  import SenderSession

  predicate NoDrive(acts: seq<S.Action>) {
    forall i :: 0 <= i < |acts| ==> !acts[i].Drive?
  }

  predicate NoLoop(acts: seq<S.Action>) {
    forall i :: 0 <= i < |acts| ==> !acts[i].Loop?
  }

  predicate NoDispatch(acts: seq<S.Action>) {
    forall i :: 0 <= i < |acts| ==> !acts[i].Take? && acts[i] != S.Check && acts[i] != S.Result
  }

  lemma {:induction false} DriverKept(s: S.Sender, acts: seq<S.Action>)
    requires NoDrive(acts)
    ensures S.Run(s, acts).driver == s.driver && S.Run(s, acts).job == s.job
  {
    hide S.DriverStep, S.Receive, S.CheckPsn, S.StoreResult, S.LoopStep, S.CxlFrame;
    if acts != [] {
      DriverKept(s, acts[..|acts| - 1]);
      OtherThan(S.Run(s, acts[..|acts| - 1]), acts[|acts| - 1]);
    }
  }

  lemma {:induction false} DispatchKept(s: S.Sender, acts: seq<S.Action>)
    requires NoDispatch(acts)
    ensures S.Run(s, acts).dispatch == s.dispatch && S.Run(s, acts).job == s.job
    ensures S.Run(s, acts).curVersion == s.curVersion && S.Run(s, acts).gap == s.gap
  {
    hide S.DriverStep, S.Receive, S.CheckPsn, S.StoreResult, S.LoopStep, S.CxlFrame;
    if acts != [] {
      DispatchKept(s, acts[..|acts| - 1]);
      OtherThan(S.Run(s, acts[..|acts| - 1]), acts[|acts| - 1]);
    }
  }

  lemma {:induction false} LoopKept(s: S.Sender, acts: seq<S.Action>)
    requires NoLoop(acts) && !SenderSafety.Handshaking(s.driver)
    ensures S.Run(s, acts).loop == s.loop && S.Run(s, acts).psn == s.psn && S.Run(s, acts).job == s.job
    ensures !SenderSafety.Handshaking(S.Run(s, acts).driver)
  {
    hide S.Step;
    if acts != [] {
      LoopKept(s, acts[..|acts| - 1]);
      SenderSafety.OthersFrame(S.Run(s, acts[..|acts| - 1]), acts[|acts| - 1]);
    }
  }

  /** Each thread's program counter is moved by its own actions only. */
  lemma OtherThan(s: S.Sender, a: S.Action)
    ensures var d := S.Step(s, a);
            && d.job == s.job
            && (!a.Drive? ==> d.driver == s.driver)
            && (!a.Take? && a != S.Check && a != S.Result ==>
                  d.dispatch == s.dispatch && d.curVersion == s.curVersion && d.gap == s.gap)
  {
    hide SenderPackets, Intact, Get32, Checksum, S.NtfFrame, S.InfoFrame, S.FinFrame, S.CxlFrame, S.DataFrame,
      S.Readable;
  }

  /** The steps that are not the driver's. */
  ghost function Others(acts: seq<S.Action>): seq<S.Action> {
    if acts == [] then []
    else Others(acts[..|acts| - 1]) + if acts[|acts| - 1].Drive? then [] else [acts[|acts| - 1]]
  }

  /** What the others do in the first `n` pauses. */
  ghost function Pauses(env: nat -> seq<S.Action>, n: nat): seq<S.Action> {
    if n == 0 then [] else Pauses(env, n - 1) + env(n - 1)
  }

  lemma {:induction false} OthersJoin(a: seq<S.Action>, b: seq<S.Action>)
    ensures Others(a + b) == Others(a) + Others(b)
  {
    if b == [] {
      assert a + b == a;
    } else {
      assert (a + b)[..|a + b| - 1] == a + b[..|b| - 1];
      OthersJoin(a, b[..|b| - 1]);
    }
  }

  lemma {:induction false} OthersOnly(a: seq<S.Action>)
    requires NoDrive(a)
    ensures Others(a) == a
  {
    if a != [] {
      OthersOnly(a[..|a| - 1]);
      assert a[..|a| - 1] + [a[|a| - 1]] == a;
    }
  }

  lemma OthersBetween(acts: seq<S.Action>, during: seq<S.Action>, b: bool)
    requires NoDrive(during)
    ensures Others([S.Drive(b)] + during + [S.Drive(b)]) == during
    ensures Others(acts + ([S.Drive(b)] + during + [S.Drive(b)])) == Others(acts) + during
  {
    assert [S.Drive(b)][..0] == [];
    assert Others([S.Drive(b)]) == Others([S.Drive(b)][..0]) == [];
    hide Others;
    OthersOnly(during);
    OthersJoin([S.Drive(b)], during);
    OthersJoin([S.Drive(b)] + during, [S.Drive(b)]);
    OthersJoin(acts, [S.Drive(b)] + during + [S.Drive(b)]);
  }

  lemma OthersAfter(acts: seq<S.Action>, after: seq<S.Action>, b: bool)
    requires NoDrive(after)
    ensures Others(acts + after + [S.Drive(b)]) == Others(acts) + after
  {
    assert [S.Drive(b)][..0] == [];
    assert Others([S.Drive(b)]) == Others([S.Drive(b)][..0]) == [];
    hide Others;
    OthersOnly(after);
    OthersJoin(acts, after);
    OthersJoin(acts + after, [S.Drive(b)]);
  }

  /** The datagram that `SendMessage` sends for an id other than DATA. */
  function Control(j: S.Job, id: MessageId): Datagram
    requires id in {NTF, INFO, FIN, CXL}
  {
    match id
    case NTF => S.NtfFrame(j)
    case INFO => S.InfoFrame(j)
    case FIN => S.FinFrame(j)
    case _ => S.CxlFrame(j)
  }

  /** The last step of `t` is the driver's, woken in its wait, and it reads the status `x`. */
  ghost predicate ReadsLast(s: S.Sender, t: seq<S.Action>, x: MessageId) {
    && t != [] && t[|t| - 1].Drive?
    && S.Run(s, t[..|t| - 1]).driver.Woken? && S.Run(s, t[..|t| - 1]).status == x
  }

  lemma ReadsLater(s: S.Sender, t: seq<S.Action>, step: seq<S.Action>, x: MessageId)
    requires ReadsLast(S.Run(s, t), step, x)
    ensures ReadsLast(s, t + step, x)
  {
    hide S.Run;
    assert (t + step)[..|t + step| - 1] == t + step[..|step| - 1];
    S.RunOn(s, t, step[..|step| - 1]);
  }

  class ServerTransaction {
    const job: S.Job
    const newFileSize: u32
    const newFileCrc32: u32
    const totalPacketNumber: u32
    var status: MessageId
    var packetSequenceNumber: u32
    var retransmitPsn: u32
    var curFileVersion: u32
    var interPacketGap: u32
    var driver: S.DriverPc
    var dispatch: S.DispatchPc
    var loop: S.LoopPc
    var aborts: nat
    var sent: seq<Datagram>

    function State(): S.Sender
      reads this
    {
      S.Sender(job, status, packetSequenceNumber, retransmitPsn, curFileVersion, interPacketGap, driver, dispatch,
        loop, aborts, sent)
    }

    /** What the constructor computed from the file, once and for all. */
    predicate Announced() {
      newFileSize == S.Size(job) && newFileCrc32 == Checksum(job.file) && totalPacketNumber == S.Tpn(job)
    }

    constructor (job: S.Job)
      ensures State() == S.Start(job) && Announced()
    {
      this.job := job;
      var crc := CrcTable.CalculateFileCrc32(Some(job.file), true, |job.file|);
      CrcValue(job.file);
      newFileSize := |job.file| % 0x1_0000_0000;
      newFileCrc32 := crc as int;
      totalPacketNumber := (|job.file| % 0x1_0000_0000 + PAYLOAD_SIZE - 1) % 0x1_0000_0000 / PAYLOAD_SIZE;
      status, packetSequenceNumber, retransmitPsn := NTF, 0, S.NO_PSN;
      curFileVersion, interPacketGap := 0, 100;
      driver, dispatch, loop, aborts, sent := S.Store(S.Notify), S.Idle, S.NotStarted, 0, [];
    }

    /** Steps of the other threads. */
    method Yield(acts: seq<S.Action>)
      modifies this
      ensures S.Run(old(State()), acts).job == job
      ensures State() == S.Run(old(State()), acts)
    {
      hide S.Run;
      var s := S.Run(State(), acts);
      JobOfRun(State(), acts);
      status, packetSequenceNumber, retransmitPsn := s.status, s.psn, s.rtx;
      curFileVersion, interPacketGap := s.curVersion, s.gap;
      driver, dispatch, loop, aborts, sent := s.driver, s.dispatch, s.loop, s.aborts, s.sent;
    }

    static lemma {:induction false} JobOfRun(s: S.Sender, acts: seq<S.Action>)
      ensures S.Run(s, acts).job == s.job
    {
      hide S.Step;
      if acts != [] {
        JobOfRun(s, acts[..|acts| - 1]);
        SenderSafety.JobKept(S.Run(s, acts[..|acts| - 1]), acts[|acts| - 1]);
      }
    }

    /** `CompleteHeader`: fills the header of `msg` in place and seals it. */
    method CompleteHeader(msg: array<Byte>, xid: MessageId, tpl: u32, psn: u32)
      requires msg.Length == MESSAGE_SIZE
      modifies msg
      ensures msg[..] == Layout(Seal(S.ServerHeader(job, xid, tpl, psn),
          old(msg[HEADER_SIZE..]))) + old(msg[HEADER_SIZE..])
    {
      PacketsInRange(tpl);
      var tpn: u32 := if tpl == 0 then 1 else (tpl + PAYLOAD_SIZE - 1) / PAYLOAD_SIZE;
      var pl: u32 := if psn == tpn - 1 then tpl % PAYLOAD_SIZE else PAYLOAD_SIZE;
      SealInPlace(msg, Header(MAGIC, 0xFD00, job.device % 0x1_0000, tpn, tpl, Code(xid), 0, psn, pl));
    }

    /** Fills a fresh message with the payload and header, and takes the bytes to send. */
    method Build(id: MessageId, tpl: u32, psn: u32, payload: seq<Byte>) returns (d: Datagram)
      requires |payload| <= PAYLOAD_SIZE && S.ServerHeader(job, id, tpl, psn).pl <= |payload|
      ensures d == S.ServerFrame(job, id, tpl, psn, payload)
    {
      hide Checksum, Digit, Layout, Packed, Seal, Packets;
      var msg := new Byte[MESSAGE_SIZE];
      forall k | 0 <= k < |payload| {
        msg[HEADER_SIZE + k] := payload[k];
      }
      ghost var rest := msg[HEADER_SIZE..];
      assert rest[..|payload|] == payload;
      CompleteHeader(msg, id, tpl, psn);
      SealedPrefix(S.ServerHeader(job, id, tpl, psn), rest, |payload|);
      d := msg[..HEADER_SIZE + |payload|];
    }

    // ---- The driver thread ----

    /** `SendMessage`, as the driver calls it: the status first, then the datagram; for DATA, the
        send loop is started instead. */
    method SendMessage(id: MessageId, between: seq<S.Action>)
      requires driver.Store? || driver == S.CancelStore || driver == S.FinStore
      requires id == if driver.Store? then S.StageId(driver.stage) else if driver == S.CancelStore then CXL else FIN
      requires NoDrive(between)
      requires Announced()
      modifies this
      ensures State() == S.Run(old(State()), [S.Drive(false)] + between + [S.Drive(false)])
      ensures driver == if old(driver).Store? then S.Enter(old(driver).stage) else S.Returned(id)
      ensures id != DATA ==> sent != [] && sent[|sent| - 1] == Control(job, id)
    {
      hide S.Run, S.Step;
      ghost var start := State();
      StoreStatus(id);
      OneStep(start, S.Drive(false));
      Yield(between);
      S.RunOn(start, [S.Drive(false)], between);
      DriverKept(S.Run(start, [S.Drive(false)]), between);
      S.RunMore(start, [S.Drive(false)] + between, S.Drive(false));
      Transmit(id);
    }

    method StoreStatus(id: MessageId)
      requires driver.Store? || driver == S.CancelStore || driver == S.FinStore
      requires id == if driver.Store? then S.StageId(driver.stage) else if driver == S.CancelStore then CXL else FIN
      requires Announced()
      modifies this
      ensures State() == S.Step(old(State()), S.Drive(false))
      ensures driver == if old(driver).Store? then S.Emit(old(driver).stage) else if id == CXL then S.CancelEmit
          else S.FinEmit
    {
      hide SenderPackets, S.LoopStep, S.Receive, S.CheckPsn, S.StoreResult;
      status := id;
      driver := match driver case Store(stage) => S.Emit(stage) case CancelStore => S.CancelEmit case _ => S.FinEmit;
    }

    method Transmit(id: MessageId)
      requires driver.Emit? || driver == S.CancelEmit || driver == S.FinEmit
      requires id == if driver.Emit? then S.StageId(driver.stage) else if driver == S.CancelEmit then CXL else FIN
      requires Announced()
      modifies this
      ensures State() == S.Step(old(State()), S.Drive(false))
      ensures driver == if old(driver).Emit? then S.Enter(old(driver).stage) else S.Returned(id)
      ensures id != DATA ==> sent == old(sent) + [Control(job, id)]
    {
      hide SenderPackets, S.LoopStep, S.Receive, S.CheckPsn, S.StoreResult, S.NtfFrame, S.InfoFrame, S.FinFrame,
        S.CxlFrame;
      if id == DATA {
        loop := S.Opening;
        driver := S.Enter(S.Transfer);
        return;
      }
      var d := BuildControl(id);
      sent := sent + [d];
      driver := match driver case Emit(stage) => S.Enter(stage) case _ => S.Returned(id);
    }

    method BuildControl(id: MessageId) returns (d: Datagram)
      requires id in {NTF, INFO, FIN, CXL}
      requires Announced()
      ensures d == Control(job, id)
    {
      hide Checksum, Digit, Packed;
      if id == NTF {
        d := Build(NTF, 4, 0, Put32(job.version));
      } else if id == INFO {
        d := Build(INFO, 12, 0, Put32(job.version) + Put32(newFileSize) + Put32(newFileCrc32));
      } else {
        d := Build(id, 0, 0, []);
      }
    }

    static lemma OneStep(s: S.Sender, a: S.Action)
      ensures S.Run(s, [a]) == S.Step(s, a)
    {
      hide S.Step;
      assert [a][..0] == [];
      assert S.Run(s, [a]) == S.Step(S.Run(s, []), a);
    }

    /** `WaitForStatus`: samples the status, waits while the others take the steps `during`, and
        either finds it changed and reads it again, after `after`, or times out. */
    method WaitForStatus(during: seq<S.Action>, after: seq<S.Action>)
      returns (got: Option<MessageId>, ghost trace: seq<S.Action>)
      requires driver.Enter? && NoDrive(during) && NoDrive(after)
      modifies this
      ensures State() == S.Run(old(State()), trace)
      ensures driver == S.AfterWait(old(driver).stage, got)
      ensures Others(trace) == during + if got == None then [] else after
      ensures got.Some? ==> ReadsLast(old(State()), trace, got.value)
    {
      hide S.Run, Others, S.CxlFrame, S.NtfFrame, S.InfoFrame, S.FinFrame, S.LoopStep, S.Receive, S.CheckPsn,
        S.StoreResult;
      ghost var start := State();
      var stage := driver.stage;
      var seen := status;
      driver := S.Waiting(stage, seen);
      OneStep(start, S.Drive(true));
      Yield(during);
      S.RunOn(start, [S.Drive(true)], during);
      DriverKept(S.Run(start, [S.Drive(true)]), during);
      trace := [S.Drive(true)] + during;
      S.RunMore(start, trace, S.Drive(true));
      trace := trace + [S.Drive(true)];
      OthersBetween([], during, true);
      if status == seen {
        driver := S.AfterWait(stage, None);
        return None, trace;
      }
      driver := S.Woken(stage);
      Yield(after);
      S.RunOn(start, trace, after);
      DriverKept(S.Run(start, trace), after);
      trace := trace + after;
      S.RunMore(start, trace, S.Drive(true));
      ghost var front := trace;
      trace := trace + [S.Drive(true)];
      assert trace[..|trace| - 1] == front;
      OthersAfter([S.Drive(true)] + during + [S.Drive(true)], after, true);
      got := Some(status);
      driver := S.AfterWait(stage, got);
    }

    /** The driver's view: `trace` is its own steps and those the others took in its first pauses. */
    ghost predicate Driving(env: nat -> seq<S.Action>, pauses: nat, trace: seq<S.Action>)
      reads this
    {
      Announced() && State() == S.Run(S.Start(job), trace) && Others(trace) == Pauses(env, pauses)
    }

    /** `SendMessage`, with the driver's next pause in it. */
    method Say(id: MessageId, env: nat -> seq<S.Action>, k0: nat, ghost t0: seq<S.Action>)
      returns (k: nat, ghost t: seq<S.Action>)
      requires Driving(env, k0, t0) && NoDrive(env(k0))
      requires driver.Store? || driver == S.CancelStore || driver == S.FinStore
      requires id == if driver.Store? then S.StageId(driver.stage) else if driver == S.CancelStore then CXL else FIN
      modifies this
      ensures Driving(env, k, t)
      ensures driver == if old(driver).Store? then S.Enter(old(driver).stage) else S.Returned(id)
      ensures id != DATA ==> sent != [] && sent[|sent| - 1] == Control(job, id)
    {
      hide S.Run, S.Start, Others;
      SendMessage(id, env(k0));
      k, t := k0 + 1, Joined(S.Start(job), t0, [S.Drive(false)] + env(k0) + [S.Drive(false)]);
      OthersBetween(t0, env(k0), false);
    }

    /** `WaitForStatus`, with the driver's next pause, or two, in it. */
    method Await(env: nat -> seq<S.Action>, k0: nat, ghost t0: seq<S.Action>)
      returns (got: Option<MessageId>, k: nat, ghost t: seq<S.Action>)
      requires Driving(env, k0, t0) && NoDrive(env(k0)) && NoDrive(env(k0 + 1)) && driver.Enter?
      modifies this
      ensures Driving(env, k, t)
      ensures driver == S.AfterWait(old(driver).stage, got)
      ensures got.Some? ==> ReadsLast(S.Start(job), t, got.value)
    {
      hide S.Run, S.Start, Others;
      ghost var step;
      got, step := WaitForStatus(env(k0), env(k0 + 1));
      k, t := if got == None then k0 + 1 else k0 + 2, Joined(S.Start(job), t0, step);
      OthersJoin(t0, step);
      if got.Some? {
        ReadsLater(S.Start(job), t0, step, got.value);
      }
      assert Pauses(env, k0 + 1) == Pauses(env, k0) + env(k0);
      assert Pauses(env, k0 + 2) == Pauses(env, k0 + 1) + env(k0 + 1);
    }

    /** A message of the handshake and the wait for its reply. */
    method Exchange(id: MessageId, env: nat -> seq<S.Action>, k0: nat, ghost t0: seq<S.Action>)
      returns (got: Option<MessageId>, k: nat, ghost t: seq<S.Action>)
      requires Driving(env, k0, t0) && (forall k: nat :: NoDrive(env(k)))
      requires driver.Store? && id == S.StageId(driver.stage)
      modifies this
      ensures Driving(env, k, t) && driver == S.AfterWait(old(driver).stage, got)
      ensures got.Some? ==> ReadsLast(S.Start(job), t, got.value)
    {
      hide Driving, ReadsLast, S.AfterWait;
      k, t := Say(id, env, k0, t0);
      got, k, t := Await(env, k, t);
    }

    /** What `StartFileTransfer` has done when it returns `result`: its own steps, with those the others
        took in the pauses it came to, in order, are a run of the sender. FIN is returned only when DONE
        was accepted with the send loop at its end, and with a FIN sent last; CXL only on reading it in
        the status, or with a CXL sent last. */
    ghost predicate Concluded(env: nat -> seq<S.Action>, pauses: nat, trace: seq<S.Action>, result: MessageId)
      reads this
    {
      && Driving(env, pauses, trace) && driver == S.Returned(result) && result in {NTF, CXL, FIN}
      && (result == FIN ==> packetSequenceNumber == S.Tpn(job) && sent != [] && sent[|sent| - 1] == S.FinFrame(job))
      && (result == CXL ==>
            ReadsLast(S.Start(job), trace, CXL) || (sent != [] && sent[|sent| - 1] == S.CxlFrame(job)))
    }

    lemma Concludes(env: nat -> seq<S.Action>, pauses: nat, trace: seq<S.Action>, result: MessageId)
      requires Driving(env, pauses, trace) && driver == S.Returned(result)
      requires result == FIN ==> sent != [] && sent[|sent| - 1] == S.FinFrame(job)
      requires result == CXL ==>
                 ReadsLast(S.Start(job), trace, CXL) || (sent != [] && sent[|sent| - 1] == S.CxlFrame(job))
      ensures Concluded(env, pauses, trace, result)
    {
      hide S.Run, S.Start, S.FinFrame, S.CxlFrame, ReadsLast, SenderPackets, Others, Pauses;
      ResultOf(job, trace);
    }

    /** The driver's last message: CXL or FIN. */
    method Close(id: MessageId, env: nat -> seq<S.Action>, k0: nat, ghost t0: seq<S.Action>)
      returns (k: nat, ghost t: seq<S.Action>)
      requires Driving(env, k0, t0) && NoDrive(env(k0))
      requires (driver == S.CancelStore && id == CXL) || (driver == S.FinStore && id == FIN)
      modifies this
      ensures Concluded(env, k, t, id)
    {
      hide Driving, Concluded, S.FinFrame, S.CxlFrame, ReadsLast;
      k, t := Say(id, env, k0, t0);
      Concludes(env, k, t, id);
    }

    /** `StartFileTransfer`. `env(k)` is what the other threads do in the driver's k-th pause. */
    method StartFileTransfer(env: nat -> seq<S.Action>)
      returns (result: MessageId, ghost trace: seq<S.Action>, pauses: nat)
      requires State() == S.Start(job)
      requires forall k: nat :: NoDrive(env(k))
      requires Announced()
      modifies this
      ensures Concluded(env, pauses, trace, result)
    {
      assert Driving(env, 0, []) && driver == S.Store(S.Notify) by { hide S.Run, S.Start; StartDriver(job, env); }
      hide S.Run, S.Start, Driving, Concluded, ReadsLast, NoDrive, Announced;
      var status: Option<MessageId>;
      pauses, trace := 0, [];

      status, pauses, trace := Exchange(NTF, env, pauses, trace);
      if status == None {
        Concludes(env, pauses, trace, NTF);
        return NTF, trace, pauses;
      } else if status == Some(CXL) {
        Concludes(env, pauses, trace, CXL);
        return CXL, trace, pauses;
      } else if status != Some(CHK) {
        pauses, trace := Close(CXL, env, pauses, trace);
        return CXL, trace, pauses;
      }

      status, pauses, trace := Exchange(INFO, env, pauses, trace);
      if status == Some(CXL) {
        Concludes(env, pauses, trace, CXL);
        return CXL, trace, pauses;
      } else if status != Some(RDY) {
        pauses, trace := Close(CXL, env, pauses, trace);
        return CXL, trace, pauses;
      }

      status, pauses, trace := Exchange(DATA, env, pauses, trace);
      if status == Some(CXL) {
        Concludes(env, pauses, trace, CXL);
        return CXL, trace, pauses;
      } else if status != Some(DONE) {
        pauses, trace := Close(CXL, env, pauses, trace);
        return CXL, trace, pauses;
      }

      pauses, trace := Close(FIN, env, pauses, trace);
      return FIN, trace, pauses;
    }

    static lemma StartDriver(j: S.Job, env: nat -> seq<S.Action>)
      ensures S.Start(j).driver == S.Store(S.Notify) && S.Run(S.Start(j), []) == S.Start(j)
      ensures Others([]) == Pauses(env, 0)
    {
    }

    static ghost function Joined(s: S.Sender, acts: seq<S.Action>, more: seq<S.Action>): (r: seq<S.Action>)
      ensures S.Run(s, r) == S.Run(S.Run(s, acts), more)
    {
      S.RunOn(s, acts, more);
      acts + more
    }

    /** What any run that has returned FIN is known to have reached. */
    static lemma ResultOf(j: S.Job, acts: seq<S.Action>)
      ensures var s := S.Run(S.Start(j), acts);
              (s.driver == S.Returned(FIN) ==> s.psn == S.Tpn(j))
                && (s.driver.Returned? ==> s.driver.result in {NTF, CXL, FIN})
    {
      hide S.Run, S.Start, SenderPackets;
      SenderSession.InStepRun(j, acts);
      SenderSafety.TraceIsRun(j, acts);
    }

    /** `AbortFileTransfer`, from any thread: whether the transaction is still registered, and then the
        store of CXL and its sending. Other aborts may store and send between the two, but not send in
        place of this one. */
    method AbortFileTransfer(between: seq<S.Action>) returns (found: bool)
      requires driver.Returned? || S.Run(State(), [S.Abort] + between).aborts > 0
      requires Announced()
      modifies this
      ensures found == !old(driver).Returned?
      ensures State() == if found then S.Run(old(State()), [S.Abort] + between + [S.AbortEmit]) else old(State())
      ensures found ==> sent != [] && sent[|sent| - 1] == S.CxlFrame(job)
    {
      hide S.Run, S.Step, S.CxlFrame;
      found := !driver.Returned?;
      if !found {
        return;
      }
      ghost var start := State();
      AbortEffects(start);
      status := CXL;
      aborts := aborts + 1;
      OneStep(start, S.Abort);
      Yield(between);
      S.RunOn(start, [S.Abort], between);
      S.RunMore(start, [S.Abort] + between, S.AbortEmit);
      AbortEffects(State());
      var d := BuildControl(CXL);
      sent := sent + [d];
      aborts := aborts - 1;
    }

    static lemma AbortEffects(s: S.Sender)
      ensures !s.driver.Returned? ==> S.Step(s, S.Abort) == s.(status := CXL, aborts := s.aborts + 1)
      ensures s.aborts > 0 ==>
                S.Step(s, S.AbortEmit) == s.(sent := s.sent + [S.CxlFrame(s.job)], aborts := s.aborts - 1)
    {
      hide S.CxlFrame;
    }

    // ---- The dispatcher thread ----

    /** `OnReceive`, with the other threads' steps `mid` before it reads the psn and `last` before it
        stores its result. */
    method OnReceive(msg: array<Byte>, len: nat, mid: seq<S.Action>, last: seq<S.Action>)
      returns (ghost trace: seq<S.Action>)
      requires msg.Length == MESSAGE_SIZE && len <= MESSAGE_SIZE
      requires dispatch == S.Idle && NoDispatch(mid) && NoDispatch(last)
      requires Announced()
      modifies this, msg
      ensures msg[..] == old(msg[..])
      ensures State() == S.Run(old(State()), trace) && dispatch == S.Idle
      ensures trace == [S.Take(msg[..], len)]
           || trace == [S.Take(msg[..], len)] + last + [S.Result]
           || trace == [S.Take(msg[..], len)] + mid + [S.Check]
           || trace == [S.Take(msg[..], len)] + mid + [S.Check] + last + [S.Result]
    {
      hide S.Run, Intact, Checksum, Get32, S.DriverStep, S.LoopStep, SenderPackets;
      ghost var start := State();
      trace := [S.Take(msg[..], len)];
      OneStep(start, S.Take(msg[..], len));
      var ok := ValidateMessageIntegrity(msg, len);
      if !ok {
        return;
      }
      IntactLength(msg[..], len);
      var payloadLen := len - HEADER_SIZE;
      var id := IdOf(Get32(msg[..], 16));
      match id {
        case Some(CHK) =>
          if status != NTF || payloadLen != 4 {
            return;
          }
          curFileVersion := Get32(msg[..], 32);
        case Some(RDY) =>
          if status != INFO || payloadLen != 12 {
            return;
          }
          interPacketGap := S.Clamp(Get32(msg[..], 40));
        case Some(CXL) =>
          if payloadLen != 0 {
            return;
          }
        case Some(DONE) =>
          if status != DATA {
            return;
          }
          trace := trace + mid + [S.Check];
          var accepted := ValidateDone(payloadLen, Get32(msg[..], 32), Get32(msg[..], 36), Get32(msg[..], 40), mid);
          Chain(start, S.Take(msg[..], len), mid, S.Check);
          if !accepted {
            return;
          }
        case Some(RTX) =>
          if status != DATA {
            return;
          }
          trace := trace + mid + [S.Check];
          var accepted := ValidateRtx(payloadLen, Get32(msg[..], 32), mid);
          Chain(start, S.Take(msg[..], len), mid, S.Check);
          if !accepted {
            return;
          }
          Conclude(S.StoreRtx(Get32(msg[..], 32)), last);
          ChainOn(start, trace, last, S.Result);
          trace := trace + last + [S.Result];
          return;
        case _ =>
          return;
      }
      Conclude(S.StoreStatus(id.value), last);
      ChainOn(start, trace, last, S.Result);
      trace := trace + last + [S.Result];
    }

    /** The psn is read, then the DONE payload is compared with what was announced. */
    method ValidateDone(payloadLen: nat, version: u32, size: u32, crc: u32, mid: seq<S.Action>) returns (accepted: bool)
      requires dispatch == S.Idle && NoDispatch(mid)
      requires Announced()
      modifies this
      ensures State() == S.Run(old(State()).(dispatch := S.PsnForDone(payloadLen, version, size, crc)), mid + [S.Check])
      ensures dispatch == if accepted then S.StoreStatus(DONE) else S.Idle
    {
      hide S.Run, Checksum, S.DriverStep, S.LoopStep, S.Receive, SenderPackets;
      dispatch := S.PsnForDone(payloadLen, version, size, crc);
      ghost var from := State();
      Yield(mid);
      DispatchKept(from, mid);
      S.RunMore(from, mid, S.Check);
      accepted := packetSequenceNumber == totalPacketNumber
               && payloadLen == 12 && version == job.version && size == newFileSize && crc == newFileCrc32;
      dispatch := if accepted then S.StoreStatus(DONE) else S.Idle;
    }

    /** A request may not be beyond the psn the loop is at. */
    method ValidateRtx(payloadLen: nat, target: u32, mid: seq<S.Action>) returns (accepted: bool)
      requires dispatch == S.Idle && NoDispatch(mid)
      modifies this
      ensures State() == S.Run(old(State()).(dispatch := S.PsnForRtx(payloadLen, target)), mid + [S.Check])
      ensures dispatch == if accepted then S.StoreRtx(target) else S.Idle
    {
      hide S.Run, Checksum, S.DriverStep, S.LoopStep, S.Receive, SenderPackets;
      dispatch := S.PsnForRtx(payloadLen, target);
      ghost var from := State();
      Yield(mid);
      DispatchKept(from, mid);
      S.RunMore(from, mid, S.Check);
      accepted := payloadLen == 4 && target <= packetSequenceNumber;
      dispatch := if accepted then S.StoreRtx(target) else S.Idle;
    }

    method Conclude(result: S.DispatchPc, last: seq<S.Action>)
      requires result.StoreStatus? || result.StoreRtx?
      requires NoDispatch(last)
      modifies this
      ensures State() == S.Run(old(State()).(dispatch := result), last + [S.Result]) && dispatch == S.Idle
    {
      hide S.Run, S.DriverStep, S.LoopStep, S.Receive, S.CheckPsn;
      dispatch := result;
      ghost var from := State();
      Yield(last);
      DispatchKept(from, last);
      S.RunMore(from, last, S.Result);
      match result {
        case StoreStatus(id) => status := id;
        case StoreRtx(target) => retransmitPsn := target;
        case _ =>
      }
      dispatch := S.Idle;
    }

    static lemma Chain(s: S.Sender, first: S.Action, mid: seq<S.Action>, a: S.Action)
      ensures S.Run(s, [first] + mid + [a]) == S.Run(S.Step(s, first), mid + [a])
    {
      hide S.Step;
      OneStep(s, first);
      assert [first] + mid + [a] == [first] + (mid + [a]);
      S.RunOn(s, [first], mid + [a]);
    }

    static lemma ChainOn(s: S.Sender, acts: seq<S.Action>, last: seq<S.Action>, a: S.Action)
      ensures S.Run(s, acts + last + [a]) == S.Run(S.Run(s, acts), last + [a])
    {
      hide S.Step;
      assert acts + last + [a] == acts + (last + [a]);
      S.RunOn(s, acts, last + [a]);
    }

    // ---- The loop thread ----

    /** The loop thread's view: `h` is every action of every thread since the start. */
    ghost predicate Looping(h: seq<S.Action>)
      reads this
    {
      Announced() && State() == S.Run(S.Start(job), h) && !SenderSafety.Handshaking(driver)
    }

    /** A pause in the loop thread: the others take the k-th list of steps, while there is one. */
    method Pause(env: seq<seq<S.Action>>, k: nat, ghost h: seq<S.Action>) returns (next: nat, ghost r: seq<S.Action>)
      requires k <= |env| && (forall i :: 0 <= i < |env| ==> NoLoop(env[i]))
      requires Looping(h)
      modifies this
      ensures Looping(r) && loop == old(loop) && packetSequenceNumber == old(packetSequenceNumber)
      ensures next == (if k < |env| then k + 1 else k) && (k == |env| ==> State() == old(State()))
    {
      hide S.Run, S.Start;
      next, r := k, h;
      if k < |env| {
        Yield(env[k]);
        S.RunOn(S.Start(job), h, env[k]);
        LoopKept(S.Run(S.Start(job), h), env[k]);
        next, r := k + 1, h + env[k];
      }
    }

    /** `h` and one more step of the loop. */
    static ghost function Did(j: S.Job, h: seq<S.Action>, io: bool): (r: seq<S.Action>)
      ensures S.Run(S.Start(j), r) == S.LoopStep(S.Run(S.Start(j), h), io)
    {
      S.RunMore(S.Start(j), h, S.Loop(io));
      h + [S.Loop(io)]
    }

    /** A pending request, if there is one, is exchanged for the sentinel and becomes the psn. */
    method ConsumeRequest(env: seq<seq<S.Action>>, k0: nat, ghost h0: seq<S.Action>)
      returns (k: nat, ghost h: seq<S.Action>)
      requires k0 <= |env| && (forall i :: 0 <= i < |env| ==> NoLoop(env[i]))
      requires Looping(h0) && (loop == S.CheckRetransmit || loop == S.TailCheck)
      modifies this
      ensures Looping(h) && k0 <= k <= |env|
      ensures loop == if old(loop) == S.CheckRetransmit then S.Send else S.Increment
      ensures k0 == |env| && old(retransmitPsn) == S.NO_PSN ==> State() == old(State()).(loop := loop)
      ensures k0 == |env| ==> retransmitPsn == S.NO_PSN
    {
      hide S.Run, S.Start, S.LoopStep;
      k, h := Pause(env, k0, h0);
      RequestEffects(State());
      h := Did(job, h, true);
      var after := if loop == S.TailCheck then S.Increment else S.Send;
      if retransmitPsn == S.NO_PSN {
        loop := after;
        return;
      }
      loop := if loop == S.TailCheck then S.TailTake else S.TakeRetransmit;
      k, h := Pause(env, k, h);
      RequestEffects(State());
      h := Did(job, h, true);
      var target := retransmitPsn;
      retransmitPsn := S.NO_PSN;
      loop := if loop == S.TailTake then S.TailStore(target) else S.StoreRetransmit(target);
      k, h := Pause(env, k, h);
      RequestEffects(State());
      h := Did(job, h, true);
      packetSequenceNumber := target;
      loop := after;
    }

    static lemma RequestEffects(s: S.Sender)
      ensures s.loop == S.CheckRetransmit ==>
                S.LoopStep(s, true) == s.(loop := if s.rtx != S.NO_PSN then S.TakeRetransmit else S.Send)
      ensures s.loop == S.TailCheck ==>
                S.LoopStep(s, true) == s.(loop := if s.rtx != S.NO_PSN then S.TailTake else S.Increment)
      ensures s.loop == S.TakeRetransmit ==>
                S.LoopStep(s, true) == s.(rtx := S.NO_PSN, loop := S.StoreRetransmit(s.rtx))
      ensures s.loop == S.TailTake ==> S.LoopStep(s, true) == s.(rtx := S.NO_PSN, loop := S.TailStore(s.rtx))
      ensures s.loop.StoreRetransmit? ==> S.LoopStep(s, true) == s.(psn := s.loop.target, loop := S.Send)
      ensures s.loop.TailStore? ==> S.LoopStep(s, true) == s.(psn := s.loop.target, loop := S.Increment)
    {
      hide SenderPackets, S.Readable, S.DataFrame, S.CxlFrame;
    }

    /** A failed open or read: the status becomes CXL and a CXL is sent. */
    method Fail(env: seq<seq<S.Action>>, k0: nat, ghost h0: seq<S.Action>) returns (k: nat, ghost h: seq<S.Action>)
      requires k0 <= |env| && (forall i :: 0 <= i < |env| ==> NoLoop(env[i]))
      requires Looping(h0) && loop == S.Failing
      modifies this
      ensures Looping(h) && loop == S.Failed && sent != [] && sent[|sent| - 1] == S.CxlFrame(job)
    {
      hide S.Run, S.Start, S.LoopStep, S.CxlFrame;
      k, h := Pause(env, k0, h0);
      FailEffects(State());
      h := Did(job, h, true);
      status := CXL;
      loop := S.FailEmit;
      k, h := Pause(env, k, h);
      h := TellFailure(h);
    }

    method TellFailure(ghost h0: seq<S.Action>) returns (ghost h: seq<S.Action>)
      requires Looping(h0) && loop == S.FailEmit
      modifies this
      ensures Looping(h) && loop == S.Failed && sent != [] && sent[|sent| - 1] == S.CxlFrame(job)
    {
      hide S.Run, S.Start, S.LoopStep, S.CxlFrame;
      FailEffects(State());
      h := Did(job, h0, true);
      var d := BuildControl(CXL);
      sent := sent + [d];
      loop := S.Failed;
    }

    static lemma FailEffects(s: S.Sender)
      ensures s.loop == S.Failing ==> S.LoopStep(s, true) == s.(status := CXL, loop := S.FailEmit)
      ensures s.loop == S.FailEmit ==> S.LoopStep(s, true) == s.(sent := s.sent + [S.CxlFrame(s.job)], loop := S.Failed)
    {
      hide SenderPackets, S.Readable, S.DataFrame, S.CxlFrame;
    }

    /** One DATA datagram: offset and length from the psn, the bytes, the header, the send. */
    method SendChunk(readOk: bool, ghost h0: seq<S.Action>) returns (ghost h: seq<S.Action>)
      requires Looping(h0) && loop == S.Send
      modifies this
      ensures Looping(h) && loop == if !readOk then S.Failing
                                    else if packetSequenceNumber + 1 == S.Tpn(job) then S.TailCheck else S.Increment
      ensures State() == old(State()).(sent := sent, loop := loop)
    {
      hide S.Run, S.Start, SenderPackets, Checksum, Packed, S.Readable, SenderSafety.Coverage, SenderSafety.Counting;
      ChunkReady(job, h0);
      h := Did(job, h0, readOk);
      if !readOk {
        loop := S.Failing;
        return;
      }
      var offset := Low32(packetSequenceNumber * PAYLOAD_SIZE);
      var payloadLen := PAYLOAD_SIZE;
      if packetSequenceNumber + 1 == totalPacketNumber {
        payloadLen := (newFileSize - offset) % 0x1_0000_0000;
      }
      ReadableBounds(job, packetSequenceNumber);
      var d := Build(DATA, newFileSize, packetSequenceNumber, job.file[offset..offset + payloadLen]);
      sent := sent + [d];
      loop := if packetSequenceNumber + 1 == totalPacketNumber then S.TailCheck else S.Increment;
    }

    static lemma ReadableBounds(j: S.Job, psn: u32)
      requires S.Readable(j, psn)
      ensures Offset(psn) + Length(S.Size(j), psn) <= |j.file| && Length(S.Size(j), psn) <= PAYLOAD_SIZE
      ensures S.ServerHeader(j, DATA, S.Size(j), psn).pl <= Length(S.Size(j), psn)
    {
      hide SenderPackets;
    }

    /** What every run gives the loop thread at its program points. */
    static lemma ChunkReady(j: S.Job, h: seq<S.Action>)
      ensures var s := S.Run(S.Start(j), h);
              && s.psn <= S.Tpn(j) < S.NO_PSN
              && (SenderSafety.InBody(s.loop) ==> s.psn < S.Tpn(j) && S.Readable(j, s.psn))
    {
      hide S.Run, S.Start, SenderPackets, S.Readable, SenderSafety.Coverage, SenderSafety.Counting,
        SenderSafety.Requests;
      SenderSafety.BegunInv(j);
      SenderSafety.LoopInvRun(SenderSafety.Begun(j), h);
      SenderSafety.TraceIsRun(j, h);
      var s := S.Run(S.Start(j), h);
      if SenderSafety.InBody(s.loop) {
        SenderSafety.BodyIsReadable(j, s.psn);
      }
    }

    /** The loop condition and the check for CXL at the top of the body. */
    method MayGoOn(env: seq<seq<S.Action>>, k0: nat, ghost h0: seq<S.Action>)
      returns (go: bool, k: nat, ghost h: seq<S.Action>)
      requires k0 <= |env| && (forall i :: 0 <= i < |env| ==> NoLoop(env[i]))
      requires Looping(h0) && loop == S.Guard
      modifies this
      ensures Looping(h) && k0 <= k <= |env| && (k0 < |env| ==> k0 < k)
      ensures if go then loop == S.CheckRetransmit else loop in {S.Finished, S.Cancelled}
      ensures packetSequenceNumber == old(packetSequenceNumber) && (go ==> packetSequenceNumber < S.Tpn(job))
      ensures k0 == |env| ==> retransmitPsn == old(retransmitPsn)
    {
      hide S.Run, S.Start, SenderPackets, S.Readable, S.DataFrame, S.CxlFrame;
      go := false;
      k, h := Pause(env, k0, h0);
      h := Did(job, h, true);
      if !(packetSequenceNumber < totalPacketNumber) {
        loop := S.Finished;
        return;
      }
      loop := S.CheckCancel;
      k, h := Pause(env, k, h);
      h := Did(job, h, true);
      if status == CXL {
        loop := S.Cancelled;
        return;
      }
      loop := S.CheckRetransmit;
      go := true;
    }

    /** The loop's increment. */
    method Advance(env: seq<seq<S.Action>>, k0: nat, ghost h0: seq<S.Action>) returns (k: nat, ghost h: seq<S.Action>)
      requires k0 <= |env| && (forall i :: 0 <= i < |env| ==> NoLoop(env[i]))
      requires Looping(h0) && loop == S.Increment
      modifies this
      ensures Looping(h) && loop == S.Guard && k0 <= k <= |env|
      ensures packetSequenceNumber == old(packetSequenceNumber) + 1 <= S.Tpn(job)
      ensures k0 == |env| ==> retransmitPsn == old(retransmitPsn)
    {
      hide S.Run, S.Start, SenderPackets, S.Readable, S.DataFrame, S.CxlFrame;
      k, h := Pause(env, k0, h0);
      ChunkReady(job, h);
      h := Did(job, h, true);
      packetSequenceNumber := Low32(packetSequenceNumber + 1);
      loop := S.Guard;
    }

    /** The thread `SendFileAsync` starts. `env` is what the other threads do in its pauses, `opens`
        and `readOks` whether the file can be opened and read. On a normal exit every packet of the
        file has been sent. */
    method SendFileAsync(env: seq<seq<S.Action>>, opens: bool, readOks: nat -> bool, ghost h0: seq<S.Action>)
      returns (ghost h: seq<S.Action>)
      requires forall i :: 0 <= i < |env| ==> NoLoop(env[i])
      requires Looping(h0) && loop == S.Opening
      modifies this
      ensures State() == S.Run(S.Start(job), h) && loop in {S.Finished, S.Cancelled, S.Failed}
      ensures loop == S.Finished ==>
                forall p: u32 :: p < S.Tpn(job) ==> S.Readable(job, p) && S.DataFrame(job, p) in sent
    {
      hide S.Run, S.Start, S.Size, SenderPackets, S.Readable, S.DataFrame, S.CxlFrame, SenderSafety.TraceRun;
      var k := 0;
      h := Did(job, h0, opens);
      if !opens {
        loop := S.Failing;
        k, h := Fail(env, k, h);
        return;
      }
      loop := S.Reset;
      k, h := Pause(env, k, h);
      h := Did(job, h, true);
      packetSequenceNumber := 0;
      loop := S.Guard;
      var sends := 0;
      while true
        invariant k <= |env| && Looping(h) && loop == S.Guard
        invariant packetSequenceNumber <= S.Tpn(job)
        decreases |env| - k, if retransmitPsn != S.NO_PSN then 1 else 0, S.Tpn(job) - packetSequenceNumber
      {
        // 1. Check for the end, and for CXL
        var go;
        go, k, h := MayGoOn(env, k, h);
        if !go {
          break;
        }

        // 2. Check for RTX
        k, h := ConsumeRequest(env, k, h);

        // 3. Prepare and send DATA
        k, h := Pause(env, k, h);
        h := SendChunk(readOks(sends), h);
        sends := sends + 1;
        if loop == S.Failing {
          k, h := Fail(env, k, h);
          return;
        }

        // 4. A request that comes while waiting at the end of the file
        if packetSequenceNumber + 1 == totalPacketNumber {
          k, h := ConsumeRequest(env, k, h);
        }

        k, h := Advance(env, k, h);
      }
      SenderSafety.FinishedMeansAllSent(job, h);
      SenderSafety.TraceIsRun(job, h);
    }
  }
}
