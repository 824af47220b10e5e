/** After FIN: when a finished transfer reaches the receiver's file handler, and when it never does. */
module Handover {
  import opened Wrappers
  import opened Words
  import opened Frame
  import opened BitwiseCrc
  import opened Segments
  import S = Sender
  import opened SenderSafety
  import opened SenderSession
  import R = Receiver
  import ReceiverSafety
  import opened ClientView
  import W = World
  import opened WorldSafety
  import opened EndToEnd
  import opened Completion

  // ---- What a sender that has returned FIN has sent ----

  predicate PastNtf(pc: S.DriverPc) {
    !(pc == S.Store(S.Notify) || pc == S.Emit(S.Notify) || pc == S.CancelStore || pc == S.CancelEmit
      || (pc.Returned? && pc.result != FIN))
  }

  predicate PastInfo(pc: S.DriverPc) {
    PastNtf(pc) && !((pc.Enter? || pc.Waiting? || pc.Woken?) && pc.stage == S.Notify)
    && pc != S.Store(S.Inform) && pc != S.Emit(S.Inform)
  }

  ghost predicate Outbox(s: S.Sender) {
    && (PastNtf(s.driver) ==> S.NtfFrame(s.job) in s.sent)
    && (PastInfo(s.driver) ==> S.InfoFrame(s.job) in s.sent)
    && (s.driver == S.Returned(FIN) ==> S.FinFrame(s.job) in s.sent)
  }

  lemma OutboxStep(s: S.Sender, a: S.Action)
    requires Outbox(s)
    ensures Outbox(S.Step(s, a))
  {
    hide SenderPackets, Intact, Get32, Checksum, S.NtfFrame, S.InfoFrame, S.FinFrame, S.CxlFrame, S.DataFrame,
      S.Readable;
  }

  lemma {:induction false} AfterOutbox(w: W.World, acts: seq<W.Act>)
    requires Outbox(w.t.s) && DataOut(w.t)
    ensures var v := W.Run(w, acts); Outbox(v.t.s) && DataOut(v.t)
  {
    hide Outbox, DataOut, S.Step, TraceStep, R.Step, W.From, ReceiverSafety.StartsSession;
    if acts != [] {
      var before, a := acts[..|acts| - 1], acts[|acts| - 1];
      AfterOutbox(w, before);
      var u := W.Run(w, before);
      match a
      case Serve(b) => TraceOutbox(u.t, b);
      case ToServer(orig, m, len) => TraceOutbox(u.t, S.Take(m, len));
      case _ =>
    }
  }

  lemma TraceOutbox(t: Trace, a: S.Action)
    requires Outbox(t.s) && DataOut(t)
    ensures Outbox(TraceStep(t, a).s) && DataOut(TraceStep(t, a))
  {
    hide Outbox, DataOut, S.Step, Jumped, SentData;
    OutboxStep(t.s, a);
    DataOutStep(t, a);
  }

  /** A state in which the sender has returned FIN, with what is known of it. */
  ghost predicate Finished(w: W.World) {
    WorldInv(w) && Outbox(w.t.s) && DataOut(w.t) && w.t.s.driver == S.Returned(FIN)
  }

  lemma AfterFinished(j: S.Job, curVersion: u32, leftover: Option<seq<Byte>>, acts: seq<W.Act>)
    requires After(j, curVersion, leftover, acts).t.s.driver == S.Returned(FIN)
    ensures var w := After(j, curVersion, leftover, acts); Finished(w) && w.t.s.job == j
  {
    hide WorldInv, W.Run, Outbox, DataOut;
    AfterInv(j, curVersion, leftover, acts);
    AfterRuns(j, curVersion, leftover, acts);
    StartOutbox(j);
    AfterOutbox(W.Initial(j, curVersion, leftover), acts);
  }

  lemma StartOutbox(j: S.Job)
    ensures Outbox(S.Start(j)) && DataOut(Begun(j))
  {
  }

  /** Every frame a receiver needs has been sent. */
  lemma AllOut(w: W.World)
    requires Finished(w)
    ensures S.NtfFrame(w.t.s.job) in w.t.s.sent && S.InfoFrame(w.t.s.job) in w.t.s.sent
    ensures S.FinFrame(w.t.s.job) in w.t.s.sent
    ensures forall p: u32 :: p < S.Tpn(w.t.s.job) ==>
              S.Readable(w.t.s.job, p) && S.DataFrame(w.t.s.job, p) in w.t.s.sent
    ensures Deliverable(w.t.s.job)
  {
    hide View, ServerSaid, ClientSaid, Requests, Counting, SenderPackets, S.Readable, S.DataFrame, S.NtfFrame,
      S.InfoFrame, S.FinFrame, Deliverable, AllIn, R.DoneFrame, Checksum;
    assert DoneHeard(w.t.s);
    assert w.t.s.psn == S.Tpn(w.t.s.job);
  }

  // ---- In the same session ----

  /** No file is delivered in this session any more. */
  ghost predicate Unheard(w: W.World) {
    w.sessions == 1 && w.cli.status != DONE && w.cli.handed == []
  }

  lemma NotUnderway(w: W.World)
    requires Finished(w) && Unheard(w)
    ensures !ReceiverSafety.Underway(w.cli) && !(w.cli.active && w.cli.listening)
  {
    hide LoopInv, InStep, ServerSaid, ClientSaid, Outbox, DataOut, Deliverable, Checksum, Packets, SenderPackets,
      OnDisk, R.DoneFrame;
    assert DoneHeard(w.t.s);
    PacketsInRange(w.cli.newSize);
  }

  lemma QuietStep(w: W.World, a: W.Act)
    requires !(w.cli.active && w.cli.listening)
    ensures var v := W.Step(w, a); v.sessions > w.sessions || (v.cli == w.cli && v.sessions == w.sessions)
  {
    hide R.Handle, R.Cancel, R.IsNtf, W.From, TraceStep;
  }

  lemma {:induction false} QuietRun(w: W.World, more: seq<W.Act>)
    requires !(w.cli.active && w.cli.listening)
    ensures var v := W.Run(w, more); v.sessions > w.sessions || (v.cli == w.cli && v.sessions == w.sessions)
  {
    hide W.Step;
    if more != [] {
      var before := more[..|more| - 1];
      QuietRun(w, before);
      var u := W.Run(w, before);
      if u.sessions > w.sessions {
        SessionsGrow(u, more[|more| - 1]);
      } else {
        QuietStep(u, more[|more| - 1]);
      }
    }
  }

  lemma SessionsGrow(w: W.World, a: W.Act)
    ensures w.sessions <= W.Step(w, a).sessions
  {
    hide R.Step, W.From, TraceStep, ReceiverSafety.StartsSession;
  }

  /** The FIN frame, delivered to a receiver in DONE, makes it hand over the file. */
  lemma FinHandsOver(w: W.World) returns (more: seq<W.Act>)
    requires Finished(w) && w.cli.status == DONE
    ensures var v := W.Run(w, more); v.cli.handed != [] && v.sessions == w.sessions
  {
    hide LoopInv, InStep, ServerSaid, ClientSaid, Outbox, DataOut, Deliverable, Checksum, Packets, SenderPackets,
      OnDisk, R.DoneFrame, S.FinFrame, Arrival, W.Step, W.Run, R.Step;
    AllOut(w);
    FinTaken(w.cli, w.t.s.job);
    RunNothing(w);
    var v;
    more, v := ToReceiver(w, [], w, S.FinFrame(w.t.s.job));
  }

  /** In every run: once `StartFileTransfer` has returned FIN to a receiver that has begun one session,
      the file handler is still called in that session if and only if it has been already, or the
      receiver is still in DONE. */
  lemma HandedOverIff(j: S.Job, curVersion: u32, leftover: Option<seq<Byte>>, acts: seq<W.Act>)
    requires var w := After(j, curVersion, leftover, acts); w.t.s.driver == S.Returned(FIN) && w.sessions == 1
    ensures var w := After(j, curVersion, leftover, acts);
            (exists more :: W.Run(w, more).sessions == 1 && W.Run(w, more).cli.handed != [])
            <==> w.cli.handed != [] || w.cli.status == DONE
  {
    hide After, W.Run, Finished;
    AfterFinished(j, curVersion, leftover, acts);
    var w := After(j, curVersion, leftover, acts);
    if w.cli.handed != [] {
      RunNothing(w);
      assert W.Run(w, []).sessions == 1 && W.Run(w, []).cli.handed != [];
    } else if w.cli.status == DONE {
      var more := FinHandsOver(w);
    } else {
      NotUnderway(w);
      forall more | W.Run(w, more).sessions == 1 ensures W.Run(w, more).cli.handed == [] {
        QuietRun(w, more);
      }
    }
  }

  // ---- In any session ----

  lemma NeverFewer(c: R.Client, e: R.Event)
    requires ReceiverSafety.Sound(c)
    ensures |c.handed| <= |R.Step(c, e).handed|
  {
    hide R.Step, ReceiverSafety.Sound;
    ReceiverSafety.HandedStep(c, e);
  }

  lemma WorldSound(w: W.World)
    requires WorldInv(w)
    ensures ReceiverSafety.Sound(w.cli)
  {
    hide LoopInv, InStep, ServerSaid, ClientSaid, Links, ReceiverSafety.Sound, OnDisk, Checksum;
  }

  /** An undamaged delivery to the socket takes no delivery back. */
  lemma Deliver(w: W.World, acts: seq<W.Act>, v: W.World, d: Datagram) returns (more: seq<W.Act>, u: W.World)
    requires v == W.Run(w, acts) && WorldInv(v) && |d| <= MESSAGE_SIZE && d in v.t.s.sent
    ensures u == W.Run(w, more) && WorldInv(u) && |v.cli.handed| <= |u.cli.handed|
    ensures u.t == v.t && u.cli == R.Step(v.cli, R.Arrive(Arrival(d), |d|, R.Io(true, true)))
  {
    hide WorldInv, W.Run, R.Step, Arrival, Download;
    more, u := ToReceiver(w, acts, v, d);
    WorldSound(v);
    NeverFewer(v.cli, R.Arrive(Arrival(d), |d|, R.Io(true, true)));
  }

  /** An inactive receiver is started over by the NTF that is still under way. */
  lemma StartOver(w: W.World, acts0: seq<W.Act>, v0: W.World) returns (acts: seq<W.Act>, v: W.World)
    requires v0 == W.Run(w, acts0) && WorldInv(v0) && !v0.cli.active && S.NtfFrame(v0.t.s.job) in v0.t.s.sent
    ensures v == W.Run(w, acts) && WorldInv(v) && v.t == v0.t && |v0.cli.handed| <= |v.cli.handed|
    ensures v.cli.active && v.cli.listening && v.cli.status == CHK && v.cli.psn == 0
    ensures v.cli.newVersion == v0.t.s.job.version
  {
    hide WorldInv, W.Step, W.Run, R.Step, S.NtfFrame, Arrival, R.ChkFrame;
    AnswerNtf(v0.cli, v0.t.s.job);
    var f := S.NtfFrame(v0.t.s.job);
    KnockEffect(v0, f);
    acts := Extend(w, acts0, v0, W.ToPort(Arrival(f), Arrival(f), |f|));
    v := W.Step(v0, W.ToPort(Arrival(f), Arrival(f), |f|));
    WorldSound(v0);
    NeverFewer(v0.cli, R.Knock(Arrival(f), |f|));
  }

  /** With all frames under way, a receiver that expects packet `p` is given the rest in order. */
  lemma {:induction false} Replay(w: W.World, acts0: seq<W.Act>, v0: W.World, p: u32)
    returns (acts: seq<W.Act>, v: W.World)
    requires v0 == W.Run(w, acts0) && WorldInv(v0) && Deliverable(v0.t.s.job) && p <= S.Tpn(v0.t.s.job)
    requires forall q: u32 :: q < S.Tpn(v0.t.s.job) ==>
               S.Readable(v0.t.s.job, q) && S.DataFrame(v0.t.s.job, q) in v0.t.s.sent
    requires v0.cli.active && v0.cli.listening && v0.cli.psn == p
    requires v0.cli.status == if p == 0 then RDY else if p < S.Tpn(v0.t.s.job) then DATA else DONE
    ensures v == W.Run(w, acts) && WorldInv(v) && v.t == v0.t && |v0.cli.handed| <= |v.cli.handed|
    ensures v.cli.active && v.cli.listening && v.cli.status == DONE
    decreases S.Tpn(v0.t.s.job) - p
  {
    hide WorldInv, W.Run, R.Step, SenderPackets, Deliverable, S.Readable, S.DataFrame, Arrival, Sendable, DoneFrameOf;
    var j := v0.t.s.job;
    SomePackets(j);
    acts, v := acts0, v0;
    if p < S.Tpn(j) {
      DataFrameSize(j, p);
      WorldView(v0);
      TakesData(v0.cli, j, p);
      acts, v := Deliver(w, acts0, v0, S.DataFrame(j, p));
      acts, v := Replay(w, acts, v, p + 1);
    }
  }

  /** Whoever is not deaf can be started over and given everything once more. */
  lemma HandsOverAgain(w: W.World) returns (more: seq<W.Act>)
    requires Finished(w) && !(w.cli.active && !w.cli.listening)
    ensures |W.Run(w, more).cli.handed| > |w.cli.handed|
  {
    hide WorldInv, Outbox, DataOut, W.Run, R.Step, SenderPackets, Deliverable, S.Readable, S.DataFrame, S.NtfFrame,
      S.InfoFrame, S.FinFrame, R.RdyFrame, Arrival;
    var j := w.t.s.job;
    AllOut(w);
    RunNothing(w);
    more := [];
    var v := w;
    if w.cli.active {
      more, v := GoSilent(w, more, v);
    }
    more, v := StartOver(w, more, v);
    DeliverableSize(j);
    AnswerInfo(v.cli, j);
    more, v := Deliver(w, more, v, S.InfoFrame(j));
    more, v := Replay(w, more, v, 0);
    FinTaken(v.cli, j);
    more, v := Deliver(w, more, v, S.FinFrame(j));
  }

  lemma DeliverableSize(j: S.Job)
    requires Deliverable(j)
    ensures S.Size(j) != 0
  {
  }

  lemma GoSilent(w: W.World, acts0: seq<W.Act>, v0: W.World) returns (acts: seq<W.Act>, v: W.World)
    requires v0 == W.Run(w, acts0) && WorldInv(v0) && v0.cli.active && v0.cli.listening
    ensures acts == acts0 + [W.Silence]
    ensures v == W.Run(w, acts) && WorldInv(v) && v.t == v0.t && !v.cli.active && v.cli.handed == v0.cli.handed
    ensures v.cli.status == CXL && v.cli.disk == v0.cli.disk && v.sessions == v0.sessions
  {
    hide WorldInv, W.Run, R.ClientCxlFrame;
    acts := Extend(w, acts0, v0, W.Silence);
    v := W.Step(v0, W.Silence);
  }

  lemma {:induction false} DeafWorld(w: W.World, more: seq<W.Act>)
    requires w.cli.active && !w.cli.listening
    ensures W.Run(w, more).cli == w.cli
  {
    hide W.From, TraceStep, R.Handle, R.Cancel, R.IsNtf, R.Begin;
    if more != [] {
      DeafWorld(w, more[..|more| - 1]);
    }
  }

  /** In every run: once `StartFileTransfer` has returned FIN, the file handler can still be called, be
      it in a session that a late NTF starts over, if and only if the receiver has not been left alive
      without a receive thread. */
  lemma CanStillHandOverIff(j: S.Job, curVersion: u32, leftover: Option<seq<Byte>>, acts: seq<W.Act>)
    requires After(j, curVersion, leftover, acts).t.s.driver == S.Returned(FIN)
    ensures var w := After(j, curVersion, leftover, acts);
            (exists more :: |W.Run(w, more).cli.handed| > |w.cli.handed|) <==> !(w.cli.active && !w.cli.listening)
  {
    hide After, W.Run, Finished;
    AfterFinished(j, curVersion, leftover, acts);
    var w := After(j, curVersion, leftover, acts);
    if w.cli.active && !w.cli.listening {
      forall more ensures W.Run(w, more).cli == w.cli {
        DeafWorld(w, more);
      }
    } else {
      var more := HandsOverAgain(w);
    }
  }

  lemma NoneYet(w: W.World)
    requires WorldInv(w) && w.sessions == 1 && ReceiverSafety.Underway(w.cli)
    ensures w.cli.handed == []
  {
    hide LoopInv, InStep, ServerSaid, ClientSaid, View;
  }

  lemma ZeroCancels(c: R.Client, j: S.Job)
    requires c.status == DONE && c.active && c.listening && S.Tpn(j) > 1 && S.Readable(j, 0)
    requires |S.DataFrame(j, 0)| <= MESSAGE_SIZE
    ensures R.Step(c, R.Arrive(Arrival(S.DataFrame(j, 0)), |S.DataFrame(j, 0)|, R.Io(true, true))) == R.Cancel(c)
    ensures R.Cancel(c) == c.(status := CXL, active := false, sent := R.Cancel(c).sent)
  {
    hide Intact, Get32, SenderPackets, S.Readable, S.DataFrame, Arrival, R.OnNtf, R.OnInfo, R.OnFin, R.OnCxl,
      R.SayRtx, R.Complete, R.ClientCxlFrame;
    var f := S.DataFrame(j, 0);
    DataReads(j, 0, Arrival(f), |f|);
    IntactLength(Arrival(f), |f|);
  }

  lemma FinUnderWay(j: S.Job, curVersion: u32, leftover: Option<seq<Byte>>) returns (acts: seq<W.Act>, v: W.World)
    requires Deliverable(j)
    ensures v == After(j, curVersion, leftover, acts) && WorldInv(v) && v.t.s.job == j && FinOnItsWay(v)
    ensures v.sessions == 1 && v.cli.handed == []
    ensures S.Tpn(j) > 1 && S.Readable(j, 0) && S.DataFrame(j, 0) in v.t.s.sent
  {
    hide WorldInv, W.Run, SenderPackets, Deliverable, Aligned, Sendable, S.Readable, S.DataFrame, After, S.FinFrame;
    var w := W.Initial(j, curVersion, leftover);
    acts, v := StartSending(j, curVersion, leftover);
    AfterRuns(j, curVersion, leftover, acts);
    SomePackets(j);
    acts, v := ToPacket(w, acts, v, 0, S.Tpn(j) - 1);
    acts, v := ToFinSent(w, acts, v, S.Tpn(j) - 1);
    AfterRuns(j, curVersion, leftover, acts);
    AfterFinished(j, curVersion, leftover, acts);
    AllOut(v);
    NoneYet(v);
  }

  /** FIN is returned, the receiver has the whole file, and yet no handler is called: FIN is lost until
      the receiver's time is up, or a duplicate of packet 0 comes first and cancels. */
  lemma FinNotHeard(j: S.Job, curVersion: u32, leftover: Option<seq<Byte>>, duplicate: bool)
    returns (early: seq<W.Act>, acts: seq<W.Act>)
    requires Deliverable(j)
    ensures FinOnItsWay(After(j, curVersion, leftover, early))
    ensures S.Readable(j, 0) && |S.DataFrame(j, 0)| <= MESSAGE_SIZE
    ensures acts == early + [if duplicate then Download(S.DataFrame(j, 0)) else W.Silence]
    ensures var w := After(j, curVersion, leftover, acts);
            && w.t.s.driver == S.Returned(FIN) && w.sessions == 1
            && w.cli.status == CXL && w.cli.disk == Some(Sendable(j)) && w.cli.handed == []
  {
    hide WorldInv, W.Run, SenderPackets, Deliverable, Sendable, S.Readable, S.DataFrame, After, R.Step, R.Cancel,
      S.FinFrame, Arrival, Download;
    var w := W.Initial(j, curVersion, leftover);
    var v;
    early, v := FinUnderWay(j, curVersion, leftover);
    AfterRuns(j, curVersion, leftover, early);
    DataFrameSize(j, 0);
    if duplicate {
      ZeroCancels(v.cli, j);
      acts, v := ToReceiver(w, early, v, S.DataFrame(j, 0));
    } else {
      acts, v := GoSilent(w, early, v);
    }
    AfterRuns(j, curVersion, leftover, acts);
  }
}
