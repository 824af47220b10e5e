/** Where the protocol as coded stops short of what one might expect of it, stated exactly. */
module Limits {
  import opened Wrappers
  import opened Words
  import opened Frame
  import opened BitwiseCrc
  import opened Segments
  import S = Sender
  import opened SenderSafety
  import opened SenderSession
  import R = Receiver
  import ReceiverSafety
  import opened ClientView
  import W = World
  import opened WorldSafety
  import opened EndToEnd
  import opened Completion
  import opened Retransmission

  /** A DATA frame that the receiver can take when it is due: it passes the integrity check and has
      the length its place in the file calls for. */
  ghost predicate Acceptable(j: S.Job, p: u32)
    requires S.Readable(j, p)
  {
    forall m: Buffer, len: nat {:trigger Holds(m, len, S.DataFrame(j, p))} :: Holds(m, len, S.DataFrame(j, p)) ==>
      Intact(m, len) && len == HEADER_SIZE + R.ExpectedLength(Get32(m, 24), Get32(m, 8), S.Size(j))
  }

  lemma AcceptableIff(j: S.Job, p: u32)
    requires p < S.Tpn(j) && S.Readable(j, p)
    ensures Acceptable(j, p) <==> S.Size(j) > PAYLOAD_SIZE && (p + 1 < S.Tpn(j) || S.Size(j) % PAYLOAD_SIZE != 0)
  {
    hide Intact, Get32, Payload, Chunk, SenderPackets, Packets, Length, S.DataFrame, S.Readable, Arrival, Checksum,
      Covered;
    var f := S.DataFrame(j, p);
    DataFrameSize(j, p);
    assert Holds(Arrival(f), |f|, f);
    DataReads(j, p, Arrival(f), |f|);
    LastLength(S.Size(j), p);
    ChunkInBounds(S.Size(j), p);
    forall m: Buffer, len: nat | Holds(m, len, f)
      ensures len == |f| && Get32(m, 24) == p && Get32(m, 8) == S.Tpn(j)
      ensures Intact(m, len) <==> p + 1 < S.Tpn(j) || S.Size(j) % PAYLOAD_SIZE != 0
    {
      DataReads(j, p, m, len);
    }
  }

  /** Exact deliverability: every DATA frame the loop builds is acceptable if and only if the size is
      above 1408 and not a multiple of it. */
  lemma EveryFrameAcceptableIff(j: S.Job)
    requires S.Size(j) >= 1 && S.Size(j) + PAYLOAD_SIZE - 1 < 0x1_0000_0000
    ensures (forall p: u32 :: p < S.Tpn(j) ==> S.Readable(j, p) && Acceptable(j, p))
            <==> S.Size(j) > PAYLOAD_SIZE && S.Size(j) % PAYLOAD_SIZE != 0
  {
    hide Acceptable, S.Readable, SenderPackets;
    CountsAgree(S.Size(j));
    PacketsInRange(S.Size(j));
    forall p: u32 | p < S.Tpn(j)
      ensures S.Readable(j, p)
      ensures Acceptable(j, p) <==> S.Size(j) > PAYLOAD_SIZE && (p + 1 < S.Tpn(j) || S.Size(j) % PAYLOAD_SIZE != 0)
    {
      BodyIsReadable(j, p);
      AcceptableIff(j, p);
    }
    var last: u32 := S.Tpn(j) - 1;
    assert S.Readable(j, last);
    assert Acceptable(j, last) <==> S.Size(j) > PAYLOAD_SIZE && S.Size(j) % PAYLOAD_SIZE != 0;
  }

  /** What an undamaged packet `p` does to a receiver under way: it is stored exactly when it is the
      one expected; it is answered by a request exactly in DATA and when it is neither packet 0 nor
      the one expected; in every other case the transfer is cancelled. So a lost packet 0 is not
      repaired, and a duplicate of it ends the session. */
  lemma PacketOutcome(c: R.Client, j: S.Job, p: u32)
    requires View(c, j) && ReceiverSafety.Underway(c) && Deliverable(j) && p < S.Tpn(j) && S.Readable(j, p)
    ensures |S.DataFrame(j, p)| <= MESSAGE_SIZE
    ensures var d := R.Step(c, R.Arrive(Arrival(S.DataFrame(j, p)), |S.DataFrame(j, p)|, R.Io(true, true)));
            && (d.psn == c.psn + 1 <==> p == c.psn && c.status == if p == 0 then RDY else DATA)
            && (d == c.(sent := c.sent + [R.RtxFrame(c.psn)]) <==> c.status == DATA && p >= 1 && p != c.psn)
            && (d.status == CXL <==> c.status != if p == 0 then RDY else DATA)
  {
    hide Intact, Checksum, SenderPackets, Packets, Get32, Payload, Chunk, Length, Covered, S.Readable, S.DataFrame,
      R.DoneFrame, R.ClientCxlFrame, R.RtxFrame, Arrival, ReceiverSafety.Verified, R.OnNtf, R.OnInfo, R.OnFin,
      R.OnCxl;
    DataFrameSize(j, p);
    var f := S.DataFrame(j, p);
    var m := Arrival(f);
    assert Holds(m, |f|, f);
    DataReads(j, p, m, |f|);
    IntactLength(m, |f|);
    LastLength(S.Size(j), p);
    PrefixGrows(j, p);
    ChunkInBounds(S.Size(j), p);
    PacketsInRange(S.Size(j));
    CountsAgree(S.Size(j));
    NotSelf(c);
  }

  lemma NotSelf(c: R.Client)
    ensures c.sent + [R.RtxFrame(c.psn)] != c.sent && c.sent + [R.ClientCxlFrame()] != c.sent
  {
    hide R.RtxFrame, R.ClientCxlFrame;
    assert |c.sent + [R.RtxFrame(c.psn)]| == |c.sent| + 1;
    assert |c.sent + [R.ClientCxlFrame()]| == |c.sent| + 1;
  }

  /** In every run, when a request for `r` has been consumed, the next packet the loop stands at is `r`
      if and only if the request was consumed before the send, or the one found next says `r` again.
      With none to be found, a request consumed in the tail wait resumes one packet late, or not at all
      if it was for the last packet. */
  lemma TailRequestSkipsOne(j: S.Job, acts: seq<S.Action>, more: seq<S.Action>, r: u32)
    requires var s := S.Run(S.Start(j), acts); AboutToJump(s, r) && FirstStand(s, more)
    ensures var s := S.Run(S.Start(j), acts);
            var u := S.Run(s, more);
            && (u.loop == S.Send ==>
                  && (u.psn == r <==> s.loop == S.StoreRetransmit(r) || Found(s, more) == r)
                  && (s.loop == S.TailStore(r) && Found(s, more) == S.NO_PSN ==> u.psn == r + 1))
            && (u.loop == S.Finished ==> s.loop == S.TailStore(r) && r + 1 == S.Tpn(j))
  {
    hide S.Run, S.Start, FirstStand, Found, SenderPackets;
    NextStand(j, acts, more, r);
    JumpIsARequest(j, acts, r);
  }

  lemma JumpIsARequest(j: S.Job, acts: seq<S.Action>, r: u32)
    requires AboutToJump(S.Run(S.Start(j), acts), r)
    ensures r < S.NO_PSN
  {
    hide S.Run, S.Start, SenderPackets, Coverage, Counting;
    BegunInv(j);
    LoopInvRun(Begun(j), acts);
    TraceIsRun(j, acts);
  }

  /** A DONE that carries the right fields is accepted exactly when the psn has reached the packet
      count; as long as the loop is in its body, the tail wait included, it is thrown away. */
  lemma DoneNeedsTheLoopToEnd(j: S.Job, acts: seq<S.Action>)
    requires S.Run(S.Start(j), acts).dispatch == S.PsnForDone(12, j.version, S.Size(j), Checksum(j.file))
    ensures var s := S.Run(S.Start(j), acts);
            var u := S.Step(s, S.Check);
            && (u.dispatch == S.StoreStatus(DONE) <==> s.psn == S.Tpn(j))
            && (InBody(s.loop) ==> u.dispatch == S.Idle)
  {
    hide S.Run, S.Start, SenderPackets, Coverage, Counting, Requests, S.DriverStep, S.Receive, S.LoopStep,
      S.StoreResult, S.CxlFrame, Checksum;
    BegunInv(j);
    LoopInvRun(Begun(j), acts);
    TraceIsRun(j, acts);
  }

  /** The sender has given up, and the receiver has the whole file and has said so. */
  ghost predicate TornApart(w: W.World) {
    && w.t.s.driver == S.Returned(CXL) && w.t.s.loop == S.Finished
    && w.cli.status == DONE && w.cli.disk == Some(Sendable(w.t.s.job)) && w.cli.handed == []
  }

  /** The loop waits in its tail, its transfer not cancelled, and the receiver has said DONE. */
  ghost predicate TailWait(w: W.World, j: S.Job) {
    && w.t.s.loop == S.TailCheck && w.t.s.status == DATA && w.t.s.dispatch == S.Idle
    && w.cli.status == DONE && DoneFrameOf(j) in w.cli.sent
  }

  /** It happens for every deliverable job: DONE is delivered while the loop waits in its tail, and is
      thrown away; `StartFileTransfer` returns CXL while the receiver has said DONE with the whole file
      in hand; and however things go on, that result stands and the handler is never called. */
  lemma DoneDropped(j: S.Job, curVersion: u32, leftover: Option<seq<Byte>>)
    returns (early: seq<W.Act>, acts: seq<W.Act>)
    requires Deliverable(j)
    ensures |DoneFrameOf(j)| <= MESSAGE_SIZE && early + [Upload(DoneFrameOf(j)), W.Serve(S.Check)] <= acts
    ensures TailWait(After(j, curVersion, leftover, early), j)
    ensures var w := After(j, curVersion, leftover, acts);
            && w.t.s.job == j && TornApart(w) && DoneFrameOf(j) in w.cli.sent
            && forall more: seq<W.Act> {:trigger W.Run(w, more)} ::
                 W.Run(w, more).t.s.driver == S.Returned(CXL) && W.Run(w, more).cli.handed == []
  {
    hide WorldInv, W.Run, W.Step, Aligned, Deliverable, SenderPackets, DoneFrameOf, Sendable, TornApart,
      TailWait, Upload;
    var w := W.Initial(j, curVersion, leftover);
    var v;
    acts, v := StartSending(j, curVersion, leftover);
    assert v == W.Run(w, acts) by { AfterRuns(j, curVersion, leftover, acts); }
    SomePackets(j);
    acts, v := ToPacket(w, acts, v, 0, S.Tpn(j) - 1);
    early, acts, v := DoneTooSoon(w, acts, v);
    AfterRuns(j, curVersion, leftover, early);
    AfterRuns(j, curVersion, leftover, acts);
    forall more: seq<W.Act> ensures W.Run(v, more).t.s.driver == S.Returned(CXL) && W.Run(v, more).cli.handed == [] {
      StaysCancelled(v, more);
    }
  }

  lemma DoneTooSoon(w: W.World, acts0: seq<W.Act>, v0: W.World)
    returns (early: seq<W.Act>, acts: seq<W.Act>, v: W.World)
    requires v0 == W.Run(w, acts0) && WorldInv(v0) && Deliverable(v0.t.s.job)
    requires S.Tpn(v0.t.s.job) > 1 && Aligned(v0, S.Tpn(v0.t.s.job) - 1)
    ensures v == W.Run(w, acts) && WorldInv(v) && v.t.s.job == v0.t.s.job
    ensures |DoneFrameOf(v0.t.s.job)| <= MESSAGE_SIZE
    ensures early + [Upload(DoneFrameOf(v0.t.s.job)), W.Serve(S.Check)] <= acts
    ensures TailWait(W.Run(w, early), v0.t.s.job)
    ensures TornApart(v) && v.t.s.driver == S.Returned(CXL) && DoneFrameOf(v0.t.s.job) in v.cli.sent
  {
    hide WorldInv, W.Run, R.Step, SenderPackets, Deliverable, S.Readable, S.DataFrame, DoneFrameOf, Arrival,
      Sendable, S.Receive, S.NtfFrame, S.InfoFrame, S.CxlFrame, S.FinFrame, Checksum;
    var j := v0.t.s.job;
    var p: u32 := S.Tpn(j) - 1;
    acts, v := SendOne(w, acts0, v0, p);
    DataFrameSize(j, p);
    WorldView(v);
    TakesData(v.cli, j, p);
    acts, v := ToReceiver(w, acts, v, S.DataFrame(j, p));
    early := acts;
    DoneTaken(v.t.s);
    acts, v := ToDispatcher(w, acts, v, DoneFrameOf(j));
    acts, v := Serve(w, acts, v, S.Check);
    assert acts == early + [Upload(DoneFrameOf(j)), W.Serve(S.Check)];
    acts, v := LoopEnds(w, acts, v, p);
    acts, v := GiveUp(w, acts, v);
    NotHanded(v);
  }

  /** The time is up for DONE. */
  lemma GiveUp(w: W.World, acts0: seq<W.Act>, v0: W.World) returns (acts: seq<W.Act>, v: W.World)
    requires v0 == W.Run(w, acts0) && WorldInv(v0)
    requires v0.t.s.driver == S.Waiting(S.Transfer, DATA) && v0.t.s.status == DATA
    ensures acts0 <= acts && v == W.Run(w, acts) && WorldInv(v) && v.cli == v0.cli && v.t.s.job == v0.t.s.job
    ensures v.t.s.driver == S.Returned(CXL) && v.t.s.loop == v0.t.s.loop
  {
    hide WorldInv, W.Step, W.Run, SenderPackets, S.NtfFrame, S.InfoFrame, S.CxlFrame, S.FinFrame;
    acts, v := Serve(w, acts0, v0, S.Drive(true));
    acts, v := Serve(w, acts, v, S.Drive(true));
    acts, v := Serve(w, acts, v, S.Drive(true));
  }

  lemma NotHanded(w: W.World)
    requires WorldInv(w) && w.t.s.driver == S.Returned(CXL)
    ensures w.cli.handed == []
  {
    hide LoopInv, InStep, View, ServerSaid, ClientSaid;
  }

  lemma {:induction false} StaysCancelled(w: W.World, more: seq<W.Act>)
    requires WorldInv(w) && w.t.s.driver == S.Returned(CXL)
    ensures W.Run(w, more).t.s.driver == S.Returned(CXL) && W.Run(w, more).cli.handed == []
  {
    hide WorldInv, W.Step;
    WorldInvRun(w, more);
    if more != [] {
      var before := more[..|more| - 1];
      StaysCancelled(w, before);
      DriverDone(W.Run(w, before), more[|more| - 1]);
    }
    NotHanded(W.Run(w, more));
  }

  lemma DriverDone(w: W.World, a: W.Act)
    requires w.t.s.driver.Returned?
    ensures W.Step(w, a).t.s.driver == w.t.s.driver
  {
    hide S.LoopStep, S.Receive, S.CheckPsn, S.StoreResult, R.Step, W.From, S.CxlFrame, ReceiverSafety.StartsSession,
      Jumped, SentData;
    match a
    case Serve(b) => DriverOver(w.t.s, b);
    case ToServer(orig, m, len) => DriverOver(w.t.s, S.Take(m, len));
    case _ =>
  }

  lemma DriverOver(s: S.Sender, b: S.Action)
    requires s.driver.Returned?
    ensures S.Step(s, b).driver == s.driver
  {
    hide SenderPackets, Intact, Get32, Checksum, S.CxlFrame, S.DataFrame, S.Readable;
  }

  /** `WaitForStatus` samples the status on entry, so a reply that is already in by then can pass
      for a timeout: there is a run in which the receiver has answered and the sender has taken the
      answer in before its driver samples, and `StartFileTransfer` still returns NTF, its result for a
      client that is not there. */
  lemma EarlyReplyMissed(j: S.Job, curVersion: u32, leftover: Option<seq<Byte>>)
    returns (early: seq<W.Act>, acts: seq<W.Act>)
    ensures early <= acts
    ensures var u := After(j, curVersion, leftover, early);
            && u.t.s.driver == S.Enter(S.Notify) && u.t.s.status == CHK && u.t.s.dispatch == S.Idle
            && u.cli.status == CHK
    ensures var w := After(j, curVersion, leftover, acts);
            w.t.s.driver == S.Returned(NTF) && w.t.s.status == CHK && w.cli.status == CHK
  {
    hide WorldInv, W.Step, W.Run, R.Step, S.LoopStep, S.Receive, S.CheckPsn, S.NtfFrame, S.InfoFrame, S.CxlFrame,
      S.FinFrame, R.ChkFrame, Arrival, SenderPackets;
    var w := W.Initial(j, curVersion, leftover);
    InitialInv(j, curVersion, leftover);
    RunNothing(w);
    var v;
    acts, v := Serve(w, [], w, S.Drive(false));
    acts, v := Serve(w, acts, v, S.Drive(false));
    AnswerNtf(v.cli, j);
    var f := S.NtfFrame(j);
    KnockEffect(v, f);
    acts := Extend(w, acts, v, W.ToPort(Arrival(f), Arrival(f), |f|));
    v := W.Step(v, W.ToPort(Arrival(f), Arrival(f), |f|));
    ChkTaken(v.t.s, v.cli.curVersion);
    acts, v := ToDispatcher(w, acts, v, R.ChkFrame(v.cli.curVersion));
    acts, v := Serve(w, acts, v, S.Result);
    early := acts;
    acts, v := Serve(w, acts, v, S.Drive(false));
    acts, v := Serve(w, acts, v, S.Drive(true));
  }
}
