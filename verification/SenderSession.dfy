/** How the driver, the dispatcher and the loop keep in step through the shared status, and what a
    cancellation stored there is worth. */
module SenderSession {
  import opened Words
  import opened Frame
  import opened BitwiseCrc
  import opened Segments
  import opened Sender
  import opened SenderSafety

  predicate AtNotify(pc: DriverPc) {
    (pc.Store? || pc.Emit? || pc.Enter? || pc.Waiting? || pc.Woken?) && pc.stage == Notify
  }

  predicate AtInform(pc: DriverPc) {
    (pc.Emit? || pc.Enter? || pc.Waiting? || pc.Woken?) && pc.stage == Inform
  }

  predicate GivenUp(pc: DriverPc) {
    pc == CancelStore || pc == CancelEmit || pc == Returned(NTF) || pc == Returned(CXL)
  }

  /** The sender has accepted DONE, or has just decided to. */
  predicate DoneSeen(s: Sender) {
    s.status == DONE || s.status == FIN || s.dispatch == StoreStatus(DONE)
    || s.driver == FinStore || s.driver == FinEmit || s.driver == Returned(FIN)
  }

  ghost predicate InStep(s: Sender) {
    && (s.status == NTF || s.dispatch == StoreStatus(CHK) ==>
          s.loop == NotStarted && (AtNotify(s.driver) || GivenUp(s.driver)))
    && (s.status == INFO || s.dispatch == StoreStatus(RDY) ==>
          s.loop == NotStarted && (AtInform(s.driver) || GivenUp(s.driver)))
    && (s.status == CHK && s.driver != Store(Notify) ==> s.dispatch != StoreStatus(CHK))
    && (s.status == RDY ==> s.dispatch != StoreStatus(RDY))
    && (s.status == DATA ==>
          || s.driver == Emit(Transfer) || s.driver == Enter(Transfer)
          || s.driver == Waiting(Transfer, DATA) || s.driver == CancelStore)
    && (s.dispatch.StoreStatus? ==> s.dispatch.id in {CHK, RDY, DONE, CXL})
    && (s.driver.Returned? ==> s.driver.result in {NTF, CXL, FIN})
    && (DoneSeen(s) ==> s.psn == Tpn(s.job))
  }

  lemma InStepDrive(t: Trace, timeUp: bool)
    requires LoopInv(t) && InStep(t.s)
    ensures InStep(DriverStep(t.s, timeUp))
  {
    hide SenderPackets, NtfFrame, InfoFrame, FinFrame, CxlFrame, Requests, Coverage, Counting, Positions, DriverStep;
    if t.s.driver.Woken? || t.s.driver.Waiting? {
      InStepWait(t.s, timeUp);
    } else {
      InStepSend(t.s, timeUp);
    }
  }

  lemma InStepWait(s: Sender, timeUp: bool)
    requires (Handshaking(s.driver) ==> s.loop == NotStarted) && InStep(s) && (s.driver.Woken? || s.driver.Waiting?)
    ensures InStep(DriverStep(s, timeUp))
  {
    hide SenderPackets, NtfFrame, InfoFrame, FinFrame, CxlFrame;
  }

  lemma InStepSend(s: Sender, timeUp: bool)
    requires (Handshaking(s.driver) ==> s.loop == NotStarted) && InStep(s) && !s.driver.Woken? && !s.driver.Waiting?
    ensures InStep(DriverStep(s, timeUp))
  {
    hide SenderPackets, NtfFrame, InfoFrame, FinFrame, CxlFrame, AfterWait;
  }

  lemma InStepReceive(s: Sender, m: Buffer, len: nat)
    requires InStep(s)
    ensures InStep(Receive(s, m, len)) || !s.dispatch.Idle?
  {
    hide SenderPackets, Intact, Get32, Checksum;
  }

  lemma InStepCheck(s: Sender)
    requires InStep(s)
    ensures InStep(CheckPsn(s))
  {
    hide SenderPackets, Checksum;
  }

  lemma InStepResult(s: Sender)
    requires InStep(s)
    ensures InStep(StoreResult(s))
  {
    hide SenderPackets;
  }

  /** What a loop step can change of what `InStep` speaks of. */
  lemma LoopChanges(t: Trace, io: bool)
    requires LoopInv(t)
    ensures var s, d := t.s, LoopStep(t.s, io);
            && d.job == s.job && d.driver == s.driver && d.dispatch == s.dispatch
            && (d.status == s.status || (d.status == CXL && s.loop == Failing))
            && (s.loop == NotStarted ==> d == s)
            && (s.psn == Tpn(s.job) ==> d.psn == s.psn)
  {
    hide SenderPackets, DataFrame, Readable, CxlFrame, Requests, Coverage, Counting;
  }

  lemma InStepLoop(t: Trace, io: bool)
    requires LoopInv(t) && InStep(t.s)
    ensures InStep(LoopStep(t.s, io))
  {
    hide SenderPackets, LoopStep, LoopInv;
    LoopChanges(t, io);
  }

  lemma InStepStep(t: Trace, a: Action)
    requires LoopInv(t) && InStep(t.s)
    ensures InStep(Step(t.s, a))
  {
    hide LoopInv, DriverStep, LoopStep, Receive, CheckPsn, StoreResult, CxlFrame, SenderPackets;
    match a
    case Drive(timeUp) => InStepDrive(t, timeUp);
    case Loop(io) => InStepLoop(t, io);
    case Abort =>
    case AbortEmit =>
    case Take(m, len) => if t.s.dispatch.Idle? { InStepReceive(t.s, m, len); }
    case Check => InStepCheck(t.s);
    case Result => InStepResult(t.s);
  }

  lemma StartInStep(j: Job)
    ensures InStep(Start(j))
  {
    hide SenderPackets;
  }

  lemma {:induction false} InStepRun(j: Job, acts: seq<Action>)
    ensures var t := TraceRun(Begun(j), acts); LoopInv(t) && InStep(t.s) && t.s.job == j
  {
    hide LoopInv, InStep, Step, Start, Jumped, SentData;
    BegunInv(j);
    LoopInvRun(Begun(j), acts);
    TraceIsRun(j, acts);
    if acts == [] {
      StartInStep(j);
    } else {
      var before := acts[..|acts| - 1];
      InStepRun(j, before);
      InStepStep(TraceRun(Begun(j), before), acts[|acts| - 1]);
    }
  }

  // ---- Cancellation ----

  /** The loop has passed its cancellation check and not yet sent: one datagram is still to come. */
  function Due(pc: LoopPc): nat {
    if pc == CheckRetransmit || pc == TakeRetransmit || pc.StoreRetransmit? || pc == Send then 1 else 0
  }

  predicate Doomed(s: Sender) {
    (s.loop != NotStarted || s.driver == Emit(Transfer)) && (!Live(s.loop) || s.status == CXL || s.psn == Tpn(s.job))
  }

  lemma DoomedLoop(t: Trace, io: bool)
    requires LoopInv(t) && Doomed(t.s)
    ensures var u := TraceStep(t, Loop(io)); Doomed(u.s) && |u.data| + Due(u.s.loop) <= |t.data| + Due(t.s.loop)
  {
    hide SenderPackets, DataFrame, Readable, CxlFrame, Coverage, Counting, Requests, DriverStep, Receive, CheckPsn,
      StoreResult;
  }

  lemma DoomedOthers(t: Trace, a: Action)
    requires LoopInv(t) && InStep(t.s) && Doomed(t.s) && !a.Loop?
    ensures Doomed(Step(t.s, a))
  {
    hide SenderPackets, NtfFrame, InfoFrame, FinFrame, CxlFrame, Requests, Positions, Coverage, Counting, LoopStep,
      Receive, CheckPsn, AfterWait;
    if a.Take? || a == Check {
      StatusKept(t.s, a);
    }
  }

  lemma StatusKept(s: Sender, a: Action)
    requires a.Take? || a == Check
    ensures var d := Step(s, a);
            d.status == s.status && d.driver == s.driver && d.loop == s.loop && d.psn == s.psn && d.job == s.job
  {
    hide SenderPackets, Intact, Get32, Checksum, DriverStep, LoopStep, StoreResult;
  }

  lemma {:induction false} DoomedRun(t: Trace, acts: seq<Action>)
    requires LoopInv(t) && InStep(t.s) && Doomed(t.s)
    ensures var u := TraceRun(t, acts);
            LoopInv(u) && InStep(u.s) && Doomed(u.s) && |u.data| + Due(u.s.loop) <= |t.data| + Due(t.s.loop)
  {
    hide LoopInv, InStep, Step, Doomed, Jumped, SentData, Due;
    LoopInvRun(t, acts);
    if acts != [] {
      var before, a := acts[..|acts| - 1], acts[|acts| - 1];
      DoomedRun(t, before);
      var u := TraceRun(t, before);
      InStepStep(u, a);
      if a.Loop? {
        DoomedLoop(u, a.io);
      } else {
        DoomedOthers(u, a);
        LoopInvPeak(u);
        OthersTrace(u, a);
        OthersFrame(u.s, a);
        DueKept(u.s, a);
      }
    }
  }

  lemma LoopInvPeak(t: Trace)
    requires LoopInv(t)
    ensures t.s.psn <= t.peak
  {
    hide SenderPackets;
  }

  lemma DueKept(s: Sender, a: Action)
    requires !a.Loop?
    ensures Due(Step(s, a).loop) <= Due(s.loop)
  {
    hide Step;
    OthersFrame(s, a);
  }

  /** Once CXL is stored in the data phase, that is with the loop running or about to be started, at
      most one more DATA datagram is sent: the one whose cancellation check is already past. */
  lemma CancellationStopsTheLoop(j: Job, acts: seq<Action>, more: seq<Action>)
    requires var s := TraceRun(Begun(j), acts).s;
             s.status == CXL && (s.loop != NotStarted || s.driver == Emit(Transfer))
    ensures var t := TraceRun(Begun(j), acts);
            |TraceRun(t, more).data| <= |t.data| + Due(t.s.loop) <= |t.data| + 1
  {
    hide TraceStep, LoopInv, InStep;
    InStepRun(j, acts);
    DoomedRun(TraceRun(Begun(j), acts), more);
  }
}
