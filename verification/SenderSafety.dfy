/** What the send loop guarantees under every interleaving of the four threads, whatever datagrams
    the dispatcher is given. */
module SenderSafety {
  import opened Words
  import opened Frame
  import opened BitwiseCrc
  import opened Segments
  import opened Sender

  // ---- A run with its history ----

  datatype Jump = Jump(before: u32, target: u32)

  /** The sender with the highest psn it has reached, the consumed retransmission requests, and the
      psns of the DATA datagrams it has sent, in order. */
  datatype Trace = Trace(s: Sender, peak: u32, jumps: seq<Jump>, data: seq<u32>)

  function Begun(j: Job): Trace {
    Trace(Start(j), 0, [], [])
  }

  function Jumped(s: Sender, a: Action): seq<Jump> {
    if a.Loop? && s.loop.StoreRetransmit? then [Jump(s.psn, s.loop.target)]
    else if a.Loop? && s.loop.TailStore? then [Jump(s.psn, s.loop.target)]
    else []
  }

  function SentData(s: Sender, a: Action): seq<u32> {
    if a.Loop? && s.loop == Send && Step(s, a).sent != s.sent then [s.psn] else []
  }

  function TraceStep(t: Trace, a: Action): Trace {
    var s := Step(t.s, a);
    Trace(s, if s.psn > t.peak then s.psn else t.peak, t.jumps + Jumped(t.s, a), t.data + SentData(t.s, a))
  }

  function TraceRun(t: Trace, acts: seq<Action>): Trace {
    if acts == [] then t else TraceStep(TraceRun(t, acts[..|acts| - 1]), acts[|acts| - 1])
  }

  /** How far the consumed requests threw the loop back, less how far they threw it forward. */
  function NetBack(jumps: seq<Jump>): int {
    if jumps == [] then 0
    else NetBack(jumps[..|jumps| - 1]) + (jumps[|jumps| - 1].before - jumps[|jumps| - 1].target)
  }

  // ---- The invariant of the loop ----

  predicate BeforeSend(pc: LoopPc) {
    pc == CheckCancel || pc == CheckRetransmit || pc == TakeRetransmit || pc.StoreRetransmit? || pc == Send
  }

  predicate AtTail(pc: LoopPc) {
    pc == TailCheck || pc == TailTake || pc.TailStore?
  }

  predicate InBody(pc: LoopPc) {
    BeforeSend(pc) || AtTail(pc) || pc == Increment
  }

  predicate NotYet(pc: LoopPc) {
    pc == NotStarted || pc == Opening || pc == Reset
  }

  ghost predicate Requests(t: Trace) {
    && (t.s.rtx == NO_PSN || t.s.rtx <= t.peak)
    && (t.s.dispatch.StoreRtx? ==> t.s.dispatch.target <= t.peak)
    && (t.s.loop == TakeRetransmit || t.s.loop == TailTake ==> t.s.rtx != NO_PSN)
    && (t.s.loop.StoreRetransmit? || t.s.loop.TailStore? ==> t.s.loop.target <= t.peak)
  }

  ghost predicate Positions(t: Trace) {
    var tpn := Tpn(t.s.job);
    && t.s.psn <= t.peak <= tpn < NO_PSN
    && (NotYet(t.s.loop) ==> t.s.psn == 0 && t.peak == 0 && t.data == [] && t.jumps == [])
    && (InBody(t.s.loop) ==> t.s.psn < tpn && t.peak < tpn)
    && (AtTail(t.s.loop) ==> t.s.psn + 1 == tpn)
    && (t.s.loop == Finished || t.peak == tpn ==> t.s.psn == tpn)
  }

  ghost predicate Coverage(t: Trace) {
    && (forall p: u32 :: p < t.peak ==> p in t.data)
    && (forall p: u32 :: p in t.data ==> p <= t.peak && p < Tpn(t.s.job))
    && (AfterSend(t.s.loop) ==> t.s.psn in t.data)
  }

  predicate AfterSend(pc: LoopPc) {
    AtTail(pc) || pc == Increment
  }

  ghost predicate Counting(t: Trace) {
    && |t.data| == t.s.psn + NetBack(t.jumps) + (if AfterSend(t.s.loop) then 1 else 0)
    && (forall i :: 0 <= i < |t.jumps| ==> t.jumps[i].before < Tpn(t.s.job))
  }

  /** The driver has not reached the point where it starts the loop. */
  predicate Handshaking(pc: DriverPc) {
    pc.Store? || pc.Emit? || ((pc.Enter? || pc.Waiting? || pc.Woken?) && pc.stage != Transfer)
  }

  ghost predicate LoopInv(t: Trace) {
    (Handshaking(t.s.driver) ==> t.s.loop == NotStarted) && Requests(t) && Positions(t) && Coverage(t) && Counting(t)
  }

  lemma BegunInv(j: Job)
    ensures LoopInv(Begun(j))
  {
    PacketsInRange(Size(j));
    hide SenderPackets;
  }

  /** In the body of the loop the chunk is always there to read. */
  lemma BodyIsReadable(j: Job, psn: u32)
    requires psn < Tpn(j)
    ensures Readable(j, psn)
  {
    ChunkInBounds(Size(j), psn);
    CountsAgree(Size(j));
    var n := Size(j);
    if psn + 1 == Packets(n) {
      assert n - psn * PAYLOAD_SIZE >= n % PAYLOAD_SIZE by { Remainder(n, psn); }
    }
  }

  lemma Remainder(n: nat, k: nat)
    requires k * PAYLOAD_SIZE <= n <= (k + 1) * PAYLOAD_SIZE
    ensures n - k * PAYLOAD_SIZE >= n % PAYLOAD_SIZE
    ensures n < (k + 1) * PAYLOAD_SIZE ==> n - k * PAYLOAD_SIZE == n % PAYLOAD_SIZE
  {
  }

  lemma JumpedOnce(jumps: seq<Jump>, j: Jump)
    ensures NetBack(jumps + [j]) == NetBack(jumps) + (j.before - j.target)
  {
    assert (jumps + [j])[..|jumps + [j]| - 1] == jumps;
  }

  lemma LoopRequests(t: Trace, io: bool)
    requires LoopInv(t)
    ensures Requests(TraceStep(t, Loop(io)))
  {
    hide DriverStep, Receive, CheckPsn, StoreResult, SenderPackets, Readable, DataFrame, CxlFrame, Coverage, Counting,
      SentData, Jumped;
  }

  lemma LoopPositions(t: Trace, io: bool)
    requires LoopInv(t)
    ensures Positions(TraceStep(t, Loop(io)))
  {
    hide DriverStep, Receive, CheckPsn, StoreResult, SenderPackets, Readable, DataFrame, CxlFrame, Coverage, Counting;
  }

  lemma LoopCoverage(t: Trace, io: bool)
    requires LoopInv(t)
    ensures Coverage(TraceStep(t, Loop(io)))
  {
    hide DriverStep, Receive, CheckPsn, StoreResult, SenderPackets, Readable, DataFrame, CxlFrame, Counting,
      LoopStep, Jumped;
    LoopHistory(t, io);
    LoopSent(t, io);
  }

  /** How a loop step moves the psn, the peak and the list of packets sent. */
  lemma LoopHistory(t: Trace, io: bool)
    requires LoopInv(t)
    ensures var u := TraceStep(t, Loop(io));
            && u.s.job == t.s.job
            && (if t.s.loop == Send && u.s.loop != Failing
                then u.data == t.data + [t.s.psn] && u.s.psn == t.s.psn && u.peak == t.peak
                else u.data == t.data)
            && (t.s.loop != Increment ==> u.s.psn <= t.peak && u.peak == t.peak)
            && (t.s.loop == Increment ==>
                  && u.s.psn == t.s.psn + 1 && u.s.loop == Guard
                  && u.peak == if u.s.psn > t.peak then u.s.psn else t.peak)
  {
    hide DriverStep, Receive, CheckPsn, StoreResult, SenderPackets, Readable, DataFrame, CxlFrame, Counting, Coverage,
      NetBack, Jumped;
    assert t.data + [] == t.data;
  }

  /** The loop comes to the steps after the send by a send, or stays there. */
  lemma LoopSent(t: Trace, io: bool)
    requires LoopInv(t)
    ensures var u := TraceStep(t, Loop(io));
            AfterSend(u.s.loop) ==>
              || (t.s.loop == Send && u.s.loop != Failing)
              || (AtTail(t.s.loop) && u.s.psn <= t.peak)
  {
    hide DriverStep, Receive, CheckPsn, StoreResult, SenderPackets, Readable, DataFrame, CxlFrame, Counting, Coverage,
      NetBack, SentData, Jumped;
  }

  lemma LoopCounting(t: Trace, io: bool)
    requires LoopInv(t)
    ensures Counting(TraceStep(t, Loop(io)))
  {
    hide TraceStep, LoopInv, Counting;
    if t.s.loop.StoreRetransmit? || t.s.loop.TailStore? {
      JumpCounting(t, io);
    } else {
      PlainCounting(t, io);
    }
  }

  lemma JumpCounting(t: Trace, io: bool)
    requires LoopInv(t) && (t.s.loop.StoreRetransmit? || t.s.loop.TailStore?)
    ensures Counting(TraceStep(t, Loop(io)))
  {
    hide DriverStep, Receive, CheckPsn, StoreResult, SenderPackets, Tpn, Handshaking, Readable, DataFrame,
      CxlFrame, Coverage, NetBack, Requests;
    JumpedOnce(t.jumps, Jump(t.s.psn, t.s.loop.target));
    assert t.data + [] == t.data;
  }

  lemma PlainCounting(t: Trace, io: bool)
    requires LoopInv(t) && !t.s.loop.StoreRetransmit? && !t.s.loop.TailStore?
    ensures Counting(TraceStep(t, Loop(io)))
  {
    hide DriverStep, Receive, CheckPsn, StoreResult, SenderPackets, Tpn, Handshaking, Readable, DataFrame,
      CxlFrame, Coverage, NetBack, Requests;
    assert t.jumps + [] == t.jumps && t.data + [] == t.data;
  }

  lemma LoopInvLoop(t: Trace, io: bool)
    requires LoopInv(t)
    ensures LoopInv(TraceStep(t, Loop(io)))
  {
    hide DriverStep, Receive, CheckPsn, StoreResult, SenderPackets, Readable, DataFrame, CxlFrame, Requests,
      Positions, Coverage, Counting;
    LoopRequests(t, io);
    LoopPositions(t, io);
    LoopCoverage(t, io);
    LoopCounting(t, io);
  }

  /** What the other threads can change of what the loop depends on. */
  lemma OthersFrame(s: Sender, a: Action)
    requires !a.Loop?
    ensures var d := Step(s, a);
            && d.job == s.job && d.psn == s.psn
            && (d.loop == s.loop || (s.driver == Emit(Transfer) && d.loop == Opening))
            && d.rtx == (if a == Result && s.dispatch.StoreRtx? then s.dispatch.target else s.rtx)
            && (d.dispatch.StoreRtx? ==> d.dispatch == s.dispatch || d.dispatch.target <= s.psn)
            && (Handshaking(d.driver) ==> Handshaking(s.driver) && d.loop == s.loop)
  {
    hide LoopStep, SenderPackets, Intact, Get32, NtfFrame, InfoFrame, FinFrame, CxlFrame, Checksum;
  }

  /** Steps of the other threads leave the history alone. */
  lemma OthersTrace(t: Trace, a: Action)
    requires !a.Loop? && t.s.psn <= t.peak
    ensures TraceStep(t, a) == t.(s := Step(t.s, a))
  {
    hide Step;
    OthersFrame(t.s, a);
    assert t.jumps + [] == t.jumps && t.data + [] == t.data;
  }

  lemma LoopInvOthers(t: Trace, a: Action)
    requires LoopInv(t) && !a.Loop?
    ensures LoopInv(TraceStep(t, a))
  {
    hide SenderPackets, Step, NetBack, TraceStep;
    OthersFrame(t.s, a);
    OthersTrace(t, a);
  }

  lemma {:induction false} LoopInvRun(t: Trace, acts: seq<Action>)
    requires LoopInv(t)
    ensures LoopInv(TraceRun(t, acts))
  {
    hide LoopInv, TraceStep;
    if acts != [] {
      LoopInvRun(t, acts[..|acts| - 1]);
      var u, a := TraceRun(t, acts[..|acts| - 1]), acts[|acts| - 1];
      if a.Loop? { LoopInvLoop(u, a.io); } else { LoopInvOthers(u, a); }
    }
  }

  lemma {:induction false} TraceIsRun(j: Job, acts: seq<Action>)
    ensures TraceRun(Begun(j), acts).s == Run(Start(j), acts) && Run(Start(j), acts).job == j
  {
    hide Step, Start;
    if acts == [] {
      assert Start(j).job == j by { StartJob(j); }
    } else {
      TraceIsRun(j, acts[..|acts| - 1]);
      JobKept(Run(Start(j), acts[..|acts| - 1]), acts[|acts| - 1]);
    }
  }

  lemma {:induction false} TraceFollows(t: Trace, more: seq<Action>)
    ensures TraceRun(t, more).s == Run(t.s, more) && TraceRun(t, more).s.job == t.s.job
  {
    hide Step;
    if more != [] {
      TraceFollows(t, more[..|more| - 1]);
      JobKept(TraceRun(t, more[..|more| - 1]).s, more[|more| - 1]);
    }
  }

  lemma StartJob(j: Job)
    ensures Start(j).job == j
  {
  }

  lemma JobKept(s: Sender, a: Action)
    ensures Step(s, a).job == s.job
  {
    hide SenderPackets, Intact, Get32, NtfFrame, InfoFrame, FinFrame, CxlFrame, DataFrame, Readable, Checksum;
  }

  // ---- The guarantees ----

  /** A pending retransmission request never runs ahead of the loop and is never the sentinel; in
      the body of the loop the chunk lies inside the file and no 32-bit computation wraps. */
  lemma RequestsAndChunks(j: Job, acts: seq<Action>)
    ensures var t := TraceRun(Begun(j), acts);
            && (t.s.rtx != NO_PSN ==> t.s.rtx <= t.peak <= Tpn(j) < NO_PSN)
            && (t.s.dispatch.StoreRtx? ==> t.s.dispatch.target <= t.peak <= Tpn(j) < NO_PSN)
            && (InBody(t.s.loop) ==>
                  && t.s.psn < Tpn(j)
                  && Offset(t.s.psn) == t.s.psn * PAYLOAD_SIZE
                  && 1 <= Length(Size(j), t.s.psn) <= PAYLOAD_SIZE
                  && Offset(t.s.psn) + Length(Size(j), t.s.psn) <= Size(j) <= |j.file|
                  && Readable(j, t.s.psn))
  {
    hide TraceStep, TraceRun, Run, SenderPackets, Readable, Offset, Length, NetBack;
    BegunInv(j);
    LoopInvRun(Begun(j), acts);
    TraceIsRun(j, acts);
    var t := TraceRun(Begun(j), acts);
    if InBody(t.s.loop) {
      ChunkInBounds(Size(j), t.s.psn);
      BodyIsReadable(j, t.s.psn);
    }
  }

  /** Every psn in the history stands for a datagram that was really sent. */
  ghost predicate DataOut(t: Trace) {
    forall p: u32 :: p in t.data ==> Readable(t.s.job, p) && DataFrame(t.s.job, p) in t.s.sent
  }

  lemma SentKept(s: Sender, a: Action)
    ensures s.sent <= Step(s, a).sent
  {
    hide SenderPackets, Intact, Get32, Checksum, NtfFrame, InfoFrame, FinFrame, CxlFrame, DataFrame, Readable;
  }

  lemma DataOutStep(t: Trace, a: Action)
    requires DataOut(t)
    ensures DataOut(TraceStep(t, a))
  {
    hide SenderPackets, DataFrame, Readable, CxlFrame, DriverStep, Receive, CheckPsn, StoreResult;
    SentKept(t.s, a);
    JobKept(t.s, a);
    var u := TraceStep(t, a);
    assert forall d :: d in t.s.sent ==> d in u.s.sent;
  }

  lemma {:induction false} DataOutRun(t: Trace, acts: seq<Action>)
    requires DataOut(t)
    ensures DataOut(TraceRun(t, acts))
  {
    hide DataOut, TraceStep;
    if acts != [] {
      DataOutRun(t, acts[..|acts| - 1]);
      DataOutStep(TraceRun(t, acts[..|acts| - 1]), acts[|acts| - 1]);
    }
  }

  /** However the loop was thrown about, a normal exit means that the DATA frame of every packet has
      been sent; and no other psn is ever sent. */
  lemma FinishedMeansAllSent(j: Job, acts: seq<Action>)
    ensures var t := TraceRun(Begun(j), acts);
            && (forall p: u32 :: p in t.data ==> p < Tpn(j))
            && (forall p: u32 :: p in t.data ==> Readable(j, p) && DataFrame(j, p) in t.s.sent)
            && (t.s.loop == Finished ==> forall p: u32 :: p < Tpn(j) ==> p in t.data)
            && (t.s.loop == Finished ==> forall p: u32 :: p < Tpn(j) ==> Readable(j, p) && DataFrame(j, p) in t.s.sent)
  {
    hide TraceStep, TraceRun, Run, SenderPackets, NetBack, Size, Readable, DataFrame;
    BegunInv(j);
    LoopInvRun(Begun(j), acts);
    DataOutRun(Begun(j), acts);
    TraceIsRun(j, acts);
  }

  /** At every head of the loop the number of DATA datagrams sent is the psn plus what the consumed
      requests threw back; so `R` consumed requests cost at most `R` further passes. */
  lemma SendsConserved(j: Job, acts: seq<Action>)
    ensures var t := TraceRun(Begun(j), acts);
            && (t.s.loop == Guard ==> |t.data| == t.s.psn + NetBack(t.jumps))
            && |t.data| <= Tpn(j) * (1 + |t.jumps|)
  {
    hide TraceStep, TraceRun, Run, SenderPackets, NetBack, Size;
    BegunInv(j);
    LoopInvRun(Begun(j), acts);
    TraceIsRun(j, acts);
    var t := TraceRun(Begun(j), acts);
    NetBackBounded(t.jumps, Tpn(j));
  }

  lemma {:induction false} NetBackBounded(jumps: seq<Jump>, n: nat)
    requires forall i :: 0 <= i < |jumps| ==> jumps[i].before < n
    ensures NetBack(jumps) <= n * |jumps|
  {
    if jumps != [] {
      NetBackBounded(jumps[..|jumps| - 1], n);
      assert n * |jumps| == n * (|jumps| - 1) + n;
    }
  }

  // ---- Termination ----

  predicate Live(pc: LoopPc) {
    !(pc == Finished || pc == Cancelled || pc == Failed)
  }

  function Rank(pc: LoopPc): nat {
    match pc
    case NotStarted => 12 case Opening => 11 case Reset => 10
    case Guard => 9 case CheckCancel => 8
    case CheckRetransmit => 7 case TakeRetransmit => 6 case StoreRetransmit(_) => 5
    case Send => 4 case TailCheck => 3 case TailTake => 2 case TailStore(_) => 1 case Increment => 0
    case Failing => 2 case FailEmit => 1
    case _ => 0
  }

  /** What requests stored and not yet acted on can still cost: a whole pass each. */
  function Pending(s: Sender): nat {
    (if s.rtx != NO_PSN then Tpn(s.job) + 1 else 0)
    + (if s.loop.StoreRetransmit? || s.loop.TailStore? then Tpn(s.job) + 1 else 0)
  }

  function Potential(s: Sender): int {
    if Live(s.loop) then 10 * (Pending(s) + Tpn(s.job) - s.psn) + Rank(s.loop) else 0
  }

  function LoopSteps(s: Sender, acts: seq<Action>): nat {
    if acts == [] then 0
    else
      var before, a := acts[..|acts| - 1], acts[|acts| - 1];
      LoopSteps(s, before) + if a.Loop? && Live(Run(s, before).loop) && Run(s, before).loop != NotStarted then 1 else 0
  }

  function RequestsStored(s: Sender, acts: seq<Action>): nat {
    if acts == [] then 0
    else
      var before, a := acts[..|acts| - 1], acts[|acts| - 1];
      RequestsStored(s, before) + if a == Result && Run(s, before).dispatch.StoreRtx? then 1 else 0
  }

  lemma PotentialLoop(t: Trace, io: bool)
    requires LoopInv(t)
    ensures var d := Step(t.s, Loop(io));
            if Live(t.s.loop) && t.s.loop != NotStarted then Potential(d) < Potential(t.s) else d == t.s
    ensures Potential(t.s) >= 0
  {
    hide SenderPackets, Tpn, LoopStep, Potential, Coverage, Counting, Requests, Positions;
    PotentialNatural(t);
    if t.s.loop.StoreRetransmit? || t.s.loop.TailStore? || t.s.loop == TakeRetransmit || t.s.loop == TailTake {
      PotentialRequest(t, io);
    } else {
      PotentialPlain(t, io);
    }
  }

  lemma PotentialNatural(t: Trace)
    requires LoopInv(t)
    ensures Potential(t.s) >= 0
  {
    hide SenderPackets, Tpn, Coverage, Counting, Requests;
  }

  lemma PotentialRequest(t: Trace, io: bool)
    requires LoopInv(t)
    requires t.s.loop.StoreRetransmit? || t.s.loop.TailStore? || t.s.loop == TakeRetransmit || t.s.loop == TailTake
    ensures Potential(LoopStep(t.s, io)) < Potential(t.s)
  {
    hide SenderPackets, Tpn, Readable, DataFrame, CxlFrame, Coverage, Counting;
  }

  lemma PotentialPlain(t: Trace, io: bool)
    requires LoopInv(t)
    requires !(t.s.loop.StoreRetransmit? || t.s.loop.TailStore? || t.s.loop == TakeRetransmit || t.s.loop == TailTake)
    ensures var d := LoopStep(t.s, io);
            if Live(t.s.loop) && t.s.loop != NotStarted then Potential(d) < Potential(t.s) else d == t.s
  {
    hide SenderPackets, Tpn, Readable, DataFrame, CxlFrame, Coverage, Counting;
  }

  lemma PotentialOthers(t: Trace, a: Action)
    requires LoopInv(t) && !a.Loop?
    ensures var d := Step(t.s, a);
            Potential(d) <= Potential(t.s) + if a == Result
              && t.s.dispatch.StoreRtx? then 10 * (Tpn(t.s.job) + 1) else 0
  {
    hide Step, SenderPackets, Coverage, Counting;
    OthersFrame(t.s, a);
  }

  /** The loop terminates: in any run at all the number of steps it takes is bounded by the packet
      count and the number of retransmission requests stored, whatever else happens. */
  lemma {:induction false} LoopTerminates(j: Job, acts: seq<Action>)
    ensures LoopSteps(Start(j), acts) + Potential(Run(Start(j), acts))
            <= 10 * Tpn(j) + 12 + 10 * (Tpn(j) + 1) * RequestsStored(Start(j), acts)
    ensures Potential(Run(Start(j), acts)) >= 0
  {
    hide Step, Potential, LoopInv;
    BegunInv(j);
    LoopInvRun(Begun(j), acts);
    TraceIsRun(j, acts);
    PotentialLoop(TraceRun(Begun(j), acts), true);
    if acts == [] {
      StartPotential(j);
    } else {
      var before, a := acts[..|acts| - 1], acts[|acts| - 1];
      LoopTerminates(j, before);
      LoopInvRun(Begun(j), before);
      TraceIsRun(j, before);
      var t := TraceRun(Begun(j), before);
      if a.Loop? { PotentialLoop(t, a.io); } else { PotentialOthers(t, a); }
      Distribute(10 * (Tpn(j) + 1), RequestsStored(Start(j), before));
    }
  }

  lemma StartPotential(j: Job)
    ensures Potential(Start(j)) == 10 * Tpn(j) + 12
  {
    hide SenderPackets;
  }

  lemma Distribute(k: int, n: int)
    ensures k * (n + 1) == k * n + k
  {
  }
}
