/** What can still become of a transfer: exactly from which states `StartFileTransfer` can return FIN,
    whatever datagrams the dispatcher is given. */
module Prospects {
  import opened Words
  import opened Frame
  import opened BitwiseCrc
  import opened Segments
  import opened Sender
  import opened SenderSafety
  import opened SenderSession
  import opened WorldSafety
  import opened Completion
  import R = Receiver

  // ---- Status and dispatcher, stage by stage ----

  predicate InStage(pc: DriverPc, stage: Stage) {
    (pc.Store? || pc.Emit? || pc.Enter? || pc.Waiting? || pc.Woken?) && pc.stage == stage
  }

  /** What the shared status and the dispatcher can be at in each stage of the handshake. */
  predicate Shaking(s: Sender) {
    && (InStage(s.driver, Notify) ==>
          && s.status in {NTF, CHK, CXL}
          && (s.dispatch == Idle || s.dispatch == StoreStatus(CHK) || s.dispatch == StoreStatus(CXL)))
    && (InStage(s.driver, Inform) ==>
          && (s.status in {INFO, RDY, CXL} || (s.driver == Store(Inform) && s.status == CHK))
          && (s.dispatch == Idle || s.dispatch == StoreStatus(RDY) || s.dispatch == StoreStatus(CXL)))
    && (InStage(s.driver, Transfer) ==> s.status in {DATA, DONE, CXL} || s.driver == Store(Transfer))
    && (s.driver in {Enter(Transfer), Woken(Transfer)} || (s.driver.Waiting? && s.driver.stage == Transfer) ==>
          s.loop != NotStarted)
    && (s.driver.Waiting? && s.driver.seen == Awaited(s.driver.stage) ==>
          s.status == Awaited(s.driver.stage) || s.status == CXL)
    && (s.status == DONE || (s.driver.Waiting? && s.driver.seen == Awaited(s.driver.stage)) ==>
          s.dispatch == Idle || s.dispatch == StoreStatus(CXL))
  }

  lemma ShakingDrive(s: Sender, timeUp: bool)
    requires Shaking(s) && InStep(s)
    ensures Shaking(DriverStep(s, timeUp))
  {
    hide Shaking, InStep, DriverStep;
    if s.driver.Waiting? || s.driver.Woken? {
      ShakingWait(s, timeUp);
    } else {
      ShakingSend(s, timeUp);
    }
  }

  lemma ShakingWait(s: Sender, timeUp: bool)
    requires Shaking(s) && InStep(s) && (s.driver.Waiting? || s.driver.Woken?)
    ensures Shaking(DriverStep(s, timeUp))
  {
    hide SenderPackets, NtfFrame, InfoFrame, FinFrame, CxlFrame;
  }

  lemma ShakingSend(s: Sender, timeUp: bool)
    requires Shaking(s) && InStep(s) && !s.driver.Waiting? && !s.driver.Woken?
    ensures Shaking(DriverStep(s, timeUp))
  {
    hide SenderPackets, NtfFrame, InfoFrame, FinFrame, CxlFrame, AfterWait;
  }

  lemma ShakingReceive(s: Sender, m: Buffer, len: nat)
    requires Shaking(s) && InStep(s) && s.dispatch == Idle
    ensures Shaking(Receive(s, m, len))
  {
    hide SenderPackets, Intact, Get32, Checksum, Clamp;
  }

  lemma ShakingCheck(s: Sender)
    requires Shaking(s)
    ensures Shaking(CheckPsn(s))
  {
    hide SenderPackets, Checksum;
  }

  lemma LoopKeeps(s: Sender, io: bool)
    ensures var d := LoopStep(s, io);
            && d.driver == s.driver && d.dispatch == s.dispatch && (d.status == s.status || d.status == CXL)
            && (d.loop == NotStarted ==> s.loop == NotStarted)
  {
    hide SenderPackets, DataFrame, Readable, CxlFrame;
  }

  lemma ShakingLoop(s: Sender, io: bool)
    requires Shaking(s)
    ensures Shaking(LoopStep(s, io))
  {
    hide LoopStep;
    LoopKeeps(s, io);
  }

  lemma ShakingStep(s: Sender, a: Action)
    requires Shaking(s) && InStep(s)
    ensures Shaking(Step(s, a))
  {
    hide SenderPackets, InStep, DriverStep, Receive, CheckPsn, LoopStep, CxlFrame;
    match a
    case Drive(timeUp) => ShakingDrive(s, timeUp);
    case Take(m, len) => if s.dispatch == Idle { ShakingReceive(s, m, len); }
    case Check => ShakingCheck(s);
    case Result => ShakingResult(s);
    case Loop(io) => ShakingLoop(s, io);
    case _ =>
  }

  lemma ShakingResult(s: Sender)
    requires Shaking(s) && InStep(s)
    ensures Shaking(StoreResult(s))
  {
    hide SenderPackets;
  }

  lemma {:induction false} ShakingRun(j: Job, acts: seq<Action>)
    ensures var s := Run(Start(j), acts); Shaking(s) && InStep(s) && s.job == j
  {
    hide Step, Shaking, InStep;
    TraceIsRun(j, acts);
    InStepRun(j, acts);
    if acts == [] {
      StartShaking(j);
    } else {
      ShakingRun(j, acts[..|acts| - 1]);
      ShakingStep(Run(Start(j), acts[..|acts| - 1]), acts[|acts| - 1]);
    }
  }

  lemma StartShaking(j: Job)
    ensures Shaking(Start(j))
  {
  }

  // ---- What can still come ----

  predicate Dead(pc: LoopPc) {
    pc == Failing || pc == FailEmit || pc == Failed || pc == Cancelled
  }

  /** The loop is past its cancellation check and comes to the end without meeting it again. */
  predicate WillEnd(s: Sender) {
    var tpn := Tpn(s.job);
    match s.loop
    case CheckRetransmit => (if s.rtx != NO_PSN then s.rtx else s.psn) + 1 == tpn
    case TakeRetransmit => s.rtx + 1 == tpn
    case StoreRetransmit(r) => r + 1 == tpn && (s.rtx == NO_PSN || s.rtx + 1 == tpn)
    case Send => s.psn + 1 == tpn && (s.rtx == NO_PSN || s.rtx + 1 == tpn)
    case TailCheck => s.rtx == NO_PSN || s.rtx + 1 == tpn
    case TailTake => s.rtx + 1 == tpn
    case TailStore(r) => r + 1 == tpn
    case Increment => s.psn + 1 == tpn
    case _ => false
  }

  predicate CanEnd(s: Sender) {
    s.psn == Tpn(s.job) || (if s.status == CXL then WillEnd(s) else !Dead(s.loop))
  }

  /** A DONE with the right fields has been taken in, and the psn is about to be looked at. */
  predicate GoodDone(s: Sender) {
    s.dispatch == PsnForDone(12, s.job.version, Size(s.job), Checksum(s.job.file))
  }

  /** The reply a stage waits for is being stored, or can still be taken in. The former can be so even
      with CXL in the status: the reply then overwrites the cancellation. For DONE, the loop must be at
      its end or able to get there. */
  predicate StillToCome(s: Sender, stage: Stage) {
    || s.dispatch == StoreStatus(Awaited(stage))
    || (s.status == StageId(stage) && s.dispatch != StoreStatus(CXL) && (stage == Transfer ==> CanEnd(s)))
    || (s.status == CXL && stage == Transfer && GoodDone(s) && CanEnd(s))
  }

  predicate CanReturnFin(s: Sender) {
    match s.driver
    case Store(_) => true
    case Emit(stage) => StillToCome(s, stage)
    case Enter(stage) => StillToCome(s, stage)
    case Waiting(stage, seen) => (s.status == Awaited(stage) && seen != s.status) || StillToCome(s, stage)
    case Woken(stage) => s.status == Awaited(stage) || StillToCome(s, stage)
    case CancelStore => false
    case CancelEmit => false
    case FinStore => true
    case FinEmit => true
    case Returned(result) => result == FIN
  }

  ghost predicate Reachable(t: Trace) {
    LoopInv(t) && InStep(t.s) && Shaking(t.s)
  }

  lemma ReachableStep(t: Trace, a: Action)
    requires Reachable(t)
    ensures Reachable(TraceStep(t, a)) && TraceStep(t, a).s == Step(t.s, a)
  {
    hide LoopInv, InStep, Shaking, Step, Jumped, SentData;
    if a.Loop? { LoopInvLoop(t, a.io); } else { LoopInvOthers(t, a); }
    InStepStep(t, a);
    ShakingStep(t.s, a);
  }

  lemma {:induction false} ReachableRun(t: Trace, more: seq<Action>)
    requires Reachable(t)
    ensures Reachable(TraceRun(t, more)) && TraceRun(t, more).s == Run(t.s, more) && TraceRun(t, more).s.job == t.s.job
  {
    hide Reachable, TraceStep, Step;
    TraceFollows(t, more);
    if more != [] {
      ReachableRun(t, more[..|more| - 1]);
      ReachableStep(TraceRun(t, more[..|more| - 1]), more[|more| - 1]);
    }
  }

  lemma AnyReachable(j: Job, acts: seq<Action>) returns (t: Trace)
    ensures Reachable(t) && t.s == Run(Start(j), acts) && t.s.job == j
  {
    hide LoopInv, InStep, Shaking, TraceRun, Run, Start;
    t := TraceRun(Begun(j), acts);
    InStepRun(j, acts);
    ShakingRun(j, acts);
    TraceIsRun(j, acts);
  }

  // ---- No way back ----

  lemma LostDrive(t: Trace, timeUp: bool)
    requires Reachable(t) && !CanReturnFin(t.s)
    ensures !CanReturnFin(DriverStep(t.s, timeUp))
  {
    hide Requests, Positions, Coverage, Counting, InStep, SenderPackets, Checksum, NtfFrame, InfoFrame, FinFrame,
      CxlFrame;
  }

  lemma LostAbort(t: Trace)
    requires Reachable(t) && !CanReturnFin(t.s)
    ensures !CanReturnFin(Step(t.s, Abort))
  {
    hide LoopInv, InStep, SenderPackets, Checksum;
  }

  lemma LostReceive(t: Trace, m: Buffer, len: nat)
    requires Reachable(t) && !CanReturnFin(t.s) && t.s.dispatch == Idle
    ensures !CanReturnFin(Receive(t.s, m, len))
  {
    hide LoopInv, InStep, WillEnd, SenderPackets, Checksum, Intact, Get32, Clamp;
  }

  lemma LostCheck(t: Trace)
    requires Reachable(t) && !CanReturnFin(t.s)
    ensures !CanReturnFin(CheckPsn(t.s))
  {
    hide LoopInv, InStep, WillEnd, SenderPackets, Checksum;
  }

  lemma LostResult(t: Trace)
    requires Reachable(t) && !CanReturnFin(t.s)
    ensures !CanReturnFin(StoreResult(t.s))
  {
    hide LoopInv, WillEnd, SenderPackets, Checksum;
  }

  lemma CannotEnd(t: Trace, io: bool)
    requires LoopInv(t) && !CanEnd(t.s)
    ensures !CanEnd(LoopStep(t.s, io))
  {
    hide Coverage, Counting, SenderPackets, DataFrame, Readable, CxlFrame;
  }

  lemma LostLoop(t: Trace, io: bool)
    requires Reachable(t) && !CanReturnFin(t.s)
    ensures !CanReturnFin(LoopStep(t.s, io))
  {
    hide CanEnd, LoopStep, InStep, LoopInv, Checksum, SenderPackets;
    LoopChanges(t, io);
    if !CanEnd(t.s) {
      CannotEnd(t, io);
    }
  }

  lemma LostStep(t: Trace, a: Action)
    requires Reachable(t) && !CanReturnFin(t.s)
    ensures !CanReturnFin(Step(t.s, a))
  {
    hide Reachable, DriverStep, Receive, CheckPsn, StoreResult, LoopStep, Checksum, SenderPackets, CxlFrame;
    match a
    case Drive(timeUp) => LostDrive(t, timeUp);
    case Take(m, len) => if t.s.dispatch == Idle { LostReceive(t, m, len); }
    case Check => LostCheck(t);
    case Result => LostResult(t);
    case Loop(io) => LostLoop(t, io);
    case Abort => LostAbort(t);
    case AbortEmit =>
  }

  lemma {:induction false} LostRun(t: Trace, more: seq<Action>)
    requires Reachable(t) && !CanReturnFin(t.s)
    ensures !CanReturnFin(Run(t.s, more))
  {
    hide Reachable, CanReturnFin, Step;
    if more != [] {
      var before := more[..|more| - 1];
      LostRun(t, before);
      ReachableRun(t, before);
      LostStep(TraceRun(t, before), more[|more| - 1]);
    }
  }

  // ---- A way on ----

  lemma Then(s: Sender, more: seq<Action>, a: Action) returns (r: seq<Action>)
    ensures r == more + [a] && Run(s, r) == Step(Run(s, more), a)
  {
    hide Step, Run;
    RunMore(s, more, a);
    r := more + [a];
  }

  lemma RunNone(s: Sender)
    ensures Run(s, []) == s
  {
  }

  /** `d` is `s` but for what the loop itself changes. */
  predicate LoopOnly(s: Sender, d: Sender) {
    d == s.(loop := d.loop, psn := d.psn, rtx := d.rtx, sent := d.sent)
  }

  lemma OneOn(t: Trace)
    requires LoopInv(t) && CanEnd(t.s) && t.s.psn != Tpn(t.s.job) && t.s.loop != NotStarted
    ensures var d := LoopStep(t.s, true); LoopOnly(t.s, d) && CanEnd(d) && d.loop != NotStarted && Live(t.s.loop)
  {
    hide Coverage, Counting, SenderPackets, DataFrame, Readable, CxlFrame;
    if t.s.loop == Send {
      BodyIsReadable(t.s.job, t.s.psn);
    }
  }

  /** Left alone, a loop that can end does. */
  lemma {:induction false} RunsOut(t: Trace) returns (more: seq<Action>)
    requires LoopInv(t) && CanEnd(t.s) && (t.s.loop != NotStarted || t.s.psn == Tpn(t.s.job))
    ensures var u := Run(t.s, more); LoopOnly(t.s, u) && u.psn == Tpn(t.s.job)
    decreases Potential(t.s)
  {
    hide LoopInv, CanEnd, Step, Run, Potential, Tpn, Jumped, SentData;
    RunNone(t.s);
    more := [];
    if t.s.psn != Tpn(t.s.job) {
      OneOn(t);
      PotentialLoop(t, true);
      LoopInvLoop(t, true);
      LoopIsStep(t.s);
      var rest := RunsOut(TraceStep(t, Loop(true)));
      more := Then(t.s, [], Loop(true));
      RunOn(t.s, more, rest);
      more := more + rest;
    }
  }

  lemma LoopIsStep(s: Sender)
    ensures Step(s, Loop(true)) == LoopStep(s, true)
  {
    hide LoopStep;
  }

  /** The dispatcher comes to rest. */
  lemma Settle(t: Trace) returns (more: seq<Action>)
    requires Reachable(t)
    ensures var u := Run(t.s, more);
            && u == t.s.(dispatch := Idle, status := u.status, rtx := u.rtx)
            && (t.s.status == DATA && t.s.dispatch != StoreStatus(CXL) && t.s.driver != CancelStore ==>
                  u.status == DATA || u.status == DONE)
  {
    hide Run, LoopInv, DriverStep, LoopStep, Receive, CxlFrame, Checksum, SenderPackets;
    RunNone(t.s);
    more := Then(t.s, [], Check);
    more := Then(t.s, more, Result);
  }

  predicate Waits(pc: DriverPc, stage: Stage) {
    (pc.Enter? || pc.Waiting? || pc.Woken?) && pc.stage == stage
  }

  /** Some datagram makes the dispatcher set about storing the reply. */
  lemma ReplyTaken(s: Sender, stage: Stage) returns (a: Action)
    requires stage != Transfer && s.status == StageId(stage) && s.dispatch == Idle
    ensures var d := Step(s, a);
            d.driver == s.driver && d.status == s.status && d.dispatch == StoreStatus(Awaited(stage))
  {
    hide Step, Arrival, R.ChkFrame, R.RdyFrame;
    if stage == Notify {
      ChkTaken(s, 0);
      a := Take(Arrival(R.ChkFrame(0)), |R.ChkFrame(0)|);
    } else {
      RdyTaken(s, 0, 0, 0);
      a := Take(Arrival(R.RdyFrame(0, 0, 0)), |R.RdyFrame(0, 0, 0)|);
    }
  }

  /** With the loop at its end, a DONE that has been taken in is accepted. */
  lemma DoneAccepted(s: Sender) returns (more: seq<Action>)
    requires GoodDone(s) && s.psn == Tpn(s.job)
    ensures Run(s, more) == s.(status := DONE, dispatch := Idle)
  {
    hide Run, Receive, DriverStep, LoopStep, Checksum, SenderPackets;
    RunNone(s);
    more := Then(s, [], Check);
    more := Then(s, more, Result);
  }

  lemma Stored(s: Sender, stage: Stage) returns (more: seq<Action>)
    requires s.dispatch == StoreStatus(Awaited(stage))
    ensures Run(s, more) == s.(status := Awaited(stage), dispatch := Idle)
  {
    hide Run, Receive, DriverStep, LoopStep, CheckPsn;
    RunNone(s);
    more := Then(s, [], Result);
  }

  /** DONE, with the status still DATA and the dispatcher at rest. */
  lemma DoneComes(t: Trace) returns (more: seq<Action>)
    requires LoopInv(t) && t.s.status == DATA && t.s.dispatch == Idle && t.s.loop != NotStarted && CanEnd(t.s)
    ensures var u := Run(t.s, more); u.status == DONE && u.driver == t.s.driver
  {
    hide LoopInv, CanEnd, Run, Step, Tpn, DoneFrameOf, Arrival, Checksum;
    var out := RunsOut(t);
    var u := Run(t.s, out);
    DoneTaken(u);
    var f := DoneFrameOf(u.job);
    out := Then(t.s, out, Take(Arrival(f), |f|));
    var rest := DoneAccepted(Run(t.s, out));
    RunOn(t.s, out, rest);
    more := out + rest;
  }

  /** A reply still to come does come, if things go well, while the driver waits. */
  lemma ReplyComes(t: Trace, stage: Stage) returns (more: seq<Action>)
    requires Reachable(t) && StillToCome(t.s, stage) && Waits(t.s.driver, stage)
    ensures var u := Run(t.s, more); u.status == Awaited(stage) && u.driver == t.s.driver
  {
    hide LoopInv, InStep, CanEnd, Run, Step, Tpn, Checksum, LoopOnly;
    if t.s.dispatch == StoreStatus(Awaited(stage)) {
      more := Stored(t.s, stage);
    } else if stage != Transfer {
      var a := ReplyTaken(t.s, stage);
      RunNone(t.s);
      more := Then(t.s, [], a);
      var rest := Stored(Run(t.s, more), stage);
      RunOn(t.s, more, rest);
      more := more + rest;
    } else {
      more := DoneStillComes(t);
    }
  }

  lemma DoneStillComes(t: Trace) returns (more: seq<Action>)
    requires Reachable(t) && StillToCome(t.s, Transfer) && Waits(t.s.driver, Transfer)
    requires t.s.dispatch != StoreStatus(DONE)
    ensures var u := Run(t.s, more); u.status == DONE && u.driver == t.s.driver
  {
    hide LoopInv, InStep, WillEnd, Run, Step, Tpn, Checksum;
    if t.s.status == DATA {
      more := Settle(t);
      ReachableRun(t, more);
      if Run(t.s, more).status == DATA {
        var rest := DoneComes(TraceRun(t, more));
        RunOn(t.s, more, rest);
        more := more + rest;
      }
    } else {
      more := RunsOut(t);
      var rest := DoneAccepted(Run(t.s, more));
      RunOn(t.s, more, rest);
      more := more + rest;
    }
  }

  function NextPc(stage: Stage): DriverPc {
    match stage case Notify => Store(Inform) case Inform => Store(Transfer) case Transfer => FinStore
  }

  /** The driver, woken or about to be, reads the reply and goes on. */
  lemma Heard(s: Sender, stage: Stage) returns (more: seq<Action>)
    requires s.status == Awaited(stage)
    requires s.driver == Woken(stage) || (s.driver.Waiting? && s.driver.stage == stage && s.driver.seen != s.status)
    ensures Run(s, more).driver == NextPc(stage)
  {
    hide Run, Receive, LoopStep, CheckPsn, StoreResult, NtfFrame, InfoFrame, FinFrame, CxlFrame;
    RunNone(s);
    more := Then(s, [], Drive(false));
    if s.driver.Waiting? {
      more := Then(s, more, Drive(false));
    }
  }

  lemma NotHeardYet(t: Trace, stage: Stage)
    requires Reachable(t) && StillToCome(t.s, stage) && Waits(t.s.driver, stage)
    ensures t.s.status != Awaited(stage)
    ensures t.s.driver.Waiting? ==> t.s.driver.seen != Awaited(stage)
  {
    hide LoopInv, CanEnd, SenderPackets, Checksum;
  }

  /** How far the driver is from its result. */
  function Left(pc: DriverPc): nat {
    match pc
    case Store(stage) => StagesAfter(stage) + 4
    case Emit(stage) => StagesAfter(stage) + 3
    case Enter(stage) => StagesAfter(stage) + 2
    case Waiting(stage, _) => StagesAfter(stage) + 1
    case Woken(stage) => StagesAfter(stage) + 1
    case FinStore => 2
    case FinEmit => 1
    case _ => 0
  }

  function StagesAfter(stage: Stage): nat {
    match stage case Notify => 10 case Inform => 6 case Transfer => 2
  }

  /** From the wait for a reply to the next stage. */
  lemma Onwards(t: Trace, stage: Stage) returns (more: seq<Action>)
    requires Reachable(t) && CanReturnFin(t.s) && Waits(t.s.driver, stage)
    ensures Run(t.s, more).driver == NextPc(stage)
    decreases Left(t.s.driver)
  {
    hide Reachable, StillToCome, Run, Step;
    if t.s.driver.Enter? {
      NotHeardYet(t, stage);
      RunNone(t.s);
      more := Then(t.s, [], Drive(false));
      EnterEffect(t.s, stage);
      ReachableRun(t, more);
      var rest := Onwards(TraceRun(t, more), stage);
      RunOn(t.s, more, rest);
      more := more + rest;
    } else {
      more := [];
      RunNone(t.s);
      if t.s.status != Awaited(stage) || !(t.s.driver.Woken? || t.s.driver.seen != t.s.status) {
        NotHeardYet(t, stage);
        more := ReplyComes(t, stage);
      }
      var rest := Heard(Run(t.s, more), stage);
      RunOn(t.s, more, rest);
      more := more + rest;
    }
  }

  lemma EnterEffect(s: Sender, stage: Stage)
    requires s.driver == Enter(stage)
    ensures Step(s, Drive(false)) == s.(driver := Waiting(stage, s.status))
    ensures StillToCome(s, stage) ==> StillToCome(Step(s, Drive(false)), stage)
  {
    hide CanEnd, Checksum;
    var d := s.(driver := Waiting(stage, s.status));
    assert CanEnd(d) == CanEnd(s) by { EndKept(s, d.driver); }
  }

  lemma EndKept(s: Sender, pc: DriverPc)
    ensures CanEnd(s.(driver := pc)) == CanEnd(s)
  {
    hide SenderPackets;
  }

  /** Up to the wait for the reply: with the dispatcher at rest before the status is stored, the reply
      is still to come. */
  lemma ToTheWait(t: Trace) returns (more: seq<Action>)
    requires Reachable(t) && CanReturnFin(t.s) && (t.s.driver.Store? || t.s.driver.Emit?)
    ensures var u := Run(t.s, more); CanReturnFin(u) && Left(u.driver) < Left(t.s.driver) && u.driver != Returned(FIN)
  {
    hide LoopInv, InStep, Shaking, Run, DriverStep, LoopStep, Receive, CheckPsn, StoreResult, Checksum, StillToCome;
    RunNone(t.s);
    more := [];
    if t.s.driver.Store? {
      more := Settle(t);
      AtRest(t, Run(t.s, more));
    } else {
      StartedStill(t);
    }
    more := Then(t.s, more, Drive(false));
  }

  lemma AtRest(t: Trace, u: Sender)
    requires Reachable(t) && t.s.driver.Store?
    requires u == t.s.(dispatch := Idle, status := u.status, rtx := u.rtx)
    ensures var d := DriverStep(u, false); d.driver == Emit(t.s.driver.stage) && StillToCome(d, t.s.driver.stage)
  {
    hide Requests, Positions, Coverage, Counting, InStep, SenderPackets, Checksum;
  }

  lemma StartedStill(t: Trace)
    requires Reachable(t) && t.s.driver.Emit? && StillToCome(t.s, t.s.driver.stage)
    ensures var d := DriverStep(t.s, false); d.driver == Enter(t.s.driver.stage) && StillToCome(d, t.s.driver.stage)
  {
    hide Requests, Positions, Coverage, Counting, InStep, SenderPackets, Checksum, NtfFrame, InfoFrame;
  }

  lemma FinTold(s: Sender) returns (more: seq<Action>)
    requires s.driver == FinStore || s.driver == FinEmit
    ensures Run(s, more).driver == Returned(FIN)
  {
    hide Run, LoopStep, Receive, CheckPsn, StoreResult, NtfFrame, InfoFrame, FinFrame, CxlFrame;
    RunNone(s);
    more := Then(s, [], Drive(false));
    if s.driver == FinStore {
      more := Then(s, more, Drive(false));
    }
  }

  lemma {:induction false} ToFin(t: Trace) returns (more: seq<Action>)
    requires Reachable(t) && CanReturnFin(t.s)
    ensures Run(t.s, more).driver == Returned(FIN)
    decreases Left(t.s.driver)
  {
    hide Reachable, StillToCome, Run, Step;
    RunNone(t.s);
    if t.s.driver.Returned? {
      more := [];
    } else if t.s.driver == FinStore || t.s.driver == FinEmit {
      more := FinTold(t.s);
    } else {
      if t.s.driver.Store? || t.s.driver.Emit? {
        more := ToTheWait(t);
      } else {
        more := Onwards(t, t.s.driver.stage);
      }
      ReachableRun(t, more);
      var rest := ToFin(TraceRun(t, more));
      RunOn(t.s, more, rest);
      more := more + rest;
    }
  }

  // ---- The results ----

  /** In every state of every run: `StartFileTransfer` can still return FIN if and only if its driver
      is about to store the status of a stage, or waits for a reply that has come in time or is still
      to come, or has heard DONE. */
  lemma FinIff(j: Job, acts: seq<Action>)
    ensures var s := Run(Start(j), acts);
            (exists more :: Run(s, more).driver == Returned(FIN)) <==> CanReturnFin(s)
  {
    hide Run, Start, StillToCome, Reachable;
    var t := AnyReachable(j, acts);
    if CanReturnFin(t.s) {
      var more := ToFin(t);
    } else {
      forall more ensures Run(t.s, more).driver != Returned(FIN) {
        LostRun(t, more);
      }
    }
  }

  /** What an abort leaves alive: the driver is about to overwrite the status, or has heard DONE, or the
      reply it waits for is already being stored and will overwrite CXL; DONE may also have been taken
      in with the loop at its end, or past its last look at the status. */
  predicate Survives(s: Sender) {
    match s.driver
    case Store(_) => true
    case FinStore => true
    case FinEmit => true
    case Emit(stage) => Overwrites(s, stage)
    case Enter(stage) => Overwrites(s, stage)
    case Waiting(stage, _) => Overwrites(s, stage)
    case Woken(stage) => Overwrites(s, stage)
    case _ => false
  }

  predicate Overwrites(s: Sender, stage: Stage) {
    || s.dispatch == StoreStatus(Awaited(stage))
    || (stage == Transfer && GoodDone(s) && (s.psn == Tpn(s.job) || WillEnd(s)))
  }

  /** In every state of every run in which a transfer is aborted, it can still be reported as finished
      if and only if it survives so. */
  lemma AbortedFinIff(j: Job, acts: seq<Action>)
    requires !Run(Start(j), acts).driver.Returned?
    ensures var s := Run(Start(j), acts);
            (exists more :: Run(Step(s, Abort), more).driver == Returned(FIN)) <==> Survives(s)
  {
    hide Run, Start, SenderPackets, Checksum, DriverStep, LoopStep, Receive, CheckPsn, StoreResult;
    FinIff(j, acts + [Abort]);
    RunMore(Start(j), acts, Abort);
  }
}
