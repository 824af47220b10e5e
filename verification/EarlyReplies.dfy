/** Replies and the sampling of the old status by `WaitForStatus`: exactly when a reply is heard. */
module EarlyReplies {
  import opened Wrappers
  import opened Words
  import opened Frame
  import opened BitwiseCrc
  import opened Segments
  import opened Sender
  import opened SenderSafety
  import opened SenderSession
  import opened Prospects

  lemma {:induction false} NeverOn(t: Trace, stage: Stage, more: seq<Action>)
    requires Reachable(t) && t.s.driver == Enter(stage) && !StillToCome(t.s, stage)
    ensures var u := Run(t.s, more);
            && u.driver != NextPc(stage)
            && (u.driver.Returned? ==> u.driver.result == CXL || (u.driver.result == NTF && stage == Notify))
  {
    hide Reachable, StillToCome, Run, Step;
    LostRun(t, more);
    ReachableRun(t, more);
    ResultsKnown(TraceRun(t, more));
    if stage != Notify {
      PastNotify(t.s, more);
    }
  }

  lemma ResultsKnown(t: Trace)
    requires Reachable(t)
    ensures t.s.driver.Returned? ==> t.s.driver.result in {NTF, CXL, FIN}
  {
    hide LoopInv, Shaking;
  }

  predicate Past(pc: DriverPc) {
    !InStage(pc, Notify) && pc != Returned(NTF)
  }

  lemma {:induction false} PastNotify(s: Sender, more: seq<Action>)
    requires Past(s.driver)
    ensures Past(Run(s, more).driver)
  {
    hide Step;
    if more != [] {
      PastNotify(s, more[..|more| - 1]);
      PastStep(Run(s, more[..|more| - 1]), more[|more| - 1]);
    }
  }

  lemma PastStep(s: Sender, a: Action)
    requires Past(s.driver)
    ensures Past(Step(s, a).driver)
  {
    hide SenderPackets, Intact, Get32, Checksum, NtfFrame, InfoFrame, FinFrame, CxlFrame, DataFrame, Readable;
  }

  /** In every run, when the driver is about to sample the old status, it can go on to the next stage
      if and only if the reply is still to come. */
  lemma HeardIffStillToCome(j: Job, acts: seq<Action>, stage: Stage)
    requires Run(Start(j), acts).driver == Enter(stage)
    ensures var s := Run(Start(j), acts);
            (exists more :: Run(s, more).driver == NextPc(stage)) <==> StillToCome(s, stage)
  {
    hide Run, Start, StillToCome, Reachable;
    var t := AnyReachable(j, acts);
    if StillToCome(t.s, stage) {
      var more := Onwards(t, stage);
    } else {
      forall more ensures Run(t.s, more).driver != NextPc(stage) {
        NeverOn(t, stage, more);
      }
    }
  }

  /** A reply, or a cancellation, that is in before the sample ends the transfer: whatever follows, the
      driver never goes on. The wait for CHK then ends in NTF or CXL, the other two in CXL. */
  lemma TooLateEndsIt(j: Job, acts: seq<Action>, stage: Stage, more: seq<Action>)
    requires var s := Run(Start(j), acts);
             s.driver == Enter(stage) && (s.status == Awaited(stage) || !StillToCome(s, stage))
    ensures var u := Run(Run(Start(j), acts), more);
            && u.driver != NextPc(stage)
            && (u.driver.Returned? ==> u.driver.result == CXL || (u.driver.result == NTF && stage == Notify))
  {
    hide Run, Start, StillToCome, Reachable;
    var t := AnyReachable(j, acts);
    if StillToCome(t.s, stage) {
      NotHeardYet(t, stage);
      assert false;
    }
    NeverOn(t, stage, more);
  }

  /** The sample decides what a timeout is worth. Whatever the other threads do during the wait: if
      the status of the stage itself was sampled, the wait times out only with that status unchanged,
      and a reply that is in is heard, timeout or not; if anything else was sampled, the wait times
      out only with a reply or a cancellation in. */
  lemma SampleDecides(j: Job, acts: seq<Action>, stage: Stage, seen: MessageId, timeUp: bool)
    requires Run(Start(j), acts).driver == Waiting(stage, seen)
    ensures var s := Run(Start(j), acts);
            var d := Step(s, Drive(timeUp));
            && (seen == StageId(stage) ==>
                  && (d.driver == AfterWait(stage, None) ==> s.status == StageId(stage))
                  && (s.status == Awaited(stage) ==> Step(d, Drive(timeUp)).driver == NextPc(stage)))
            && (seen != StageId(stage) && d.driver == AfterWait(stage, None) ==>
                  s.status == Awaited(stage) || s.status == CXL)
  {
    hide Run, Start, SenderPackets, InStep, NtfFrame, InfoFrame, FinFrame, CxlFrame;
    ShakingRun(j, acts);
  }
}
