/** The joint invariant of sender, receiver and network, and what it means end to end. */
module WorldSafety {
  import opened Wrappers
  import opened Words
  import opened Frame
  import opened BitwiseCrc
  import opened Segments
  import S = Sender
  import opened SenderSafety
  import opened SenderSession
  import R = Receiver
  import ReceiverSafety
  import opened ClientView
  import W = World

  // ---- Who said what ----

  ghost predicate FromServer(t: Trace, d: Datagram) {
    var j := t.s.job;
    || d == S.NtfFrame(j) || d == S.InfoFrame(j) || d == S.CxlFrame(j)
    || (d == S.FinFrame(j) && t.s.driver == S.Returned(FIN))
    || exists p: u32 :: p in t.data && p < S.Tpn(j) && S.Readable(j, p) && d == S.DataFrame(j, p)
  }

  /** The receiver has said DONE: the job can be delivered, and unless a second session has begun
      the file is complete. */
  ghost predicate DoneSaid(w: W.World) {
    Deliverable(w.t.s.job) && (w.sessions >= 2 || AllIn(w.cli))
  }

  function DoneFrameOf(j: S.Job): Datagram {
    R.DoneFrame(j.version, S.Size(j), Checksum(j.file))
  }

  ghost predicate FromClient(w: W.World, d: Datagram) {
    var j := w.t.s.job;
    || d == R.ChkFrame(w.cli.curVersion)
    || d == R.RdyFrame(j.version, S.Size(j), w.cli.gap)
    || d == R.ClientCxlFrame()
    || (d == DoneFrameOf(j) && DoneSaid(w))
    || exists r: u32 :: 1 <= r < S.Tpn(j) && d == R.RtxFrame(r)
  }

  ghost predicate ServerSaid(t: Trace) {
    forall i :: 0 <= i < |t.s.sent| ==> FromServer(t, t.s.sent[i])
  }

  ghost predicate ClientSaid(w: W.World) {
    forall i :: 0 <= i < |w.cli.sent| ==> FromClient(w, w.cli.sent[i])
  }

  /** The sender has accepted a DONE, or is looking at one. */
  predicate DoneHeard(s: S.Sender) {
    DoneSeen(s) || s.dispatch.PsnForDone?
  }

  ghost predicate Links(w: W.World) {
    && (w.cli.psn >= 1 ==> w.cli.psn - 1 in w.t.data)
    && (w.cli.handed != [] ==> w.t.s.driver == S.Returned(FIN))
    && (DoneHeard(w.t.s) ==> DoneSaid(w) && DoneFrameOf(w.t.s.job) in w.cli.sent)
    && (ReceiverSafety.Underway(w.cli) || w.cli.newSize != 0 ==> w.sessions >= 1)
    && |w.cli.handed| <= w.sessions && (ReceiverSafety.Underway(w.cli) ==> |w.cli.handed| < w.sessions)
  }

  ghost predicate WorldInv(w: W.World) {
    && LoopInv(w.t) && InStep(w.t.s) && View(w.cli, w.t.s.job)
    && ServerSaid(w.t) && ClientSaid(w) && Links(w)
  }

  lemma InitialInv(j: S.Job, curVersion: u32, leftover: Option<seq<Byte>>)
    ensures WorldInv(W.Initial(j, curVersion, leftover))
  {
    hide LoopInv, InStep, View;
    BegunInv(j);
    StartInStep(j);
    FreshView(j, curVersion, leftover);
  }

  // ---- Sender steps ----

  /** What one sender step sends, and what it keeps. */
  lemma ServerSpoke(t: Trace, a: S.Action)
    requires LoopInv(t)
    ensures var u := TraceStep(t, a);
            && u.s.job == t.s.job
            && (forall p :: p in t.data ==> p in u.data)
            && (t.s.driver == S.Returned(FIN) ==> u.s.driver == S.Returned(FIN))
            && (|| u.s.sent == t.s.sent
                || (|u.s.sent| == |t.s.sent| + 1 && u.s.sent[..|t.s.sent|] == t.s.sent
                  && FromServer(u, u.s.sent[|t.s.sent|])))
  {
    hide SenderPackets, Intact, Get32, Checksum, S.NtfFrame, S.InfoFrame, S.FinFrame, S.CxlFrame, S.DataFrame,
      S.Readable, Coverage, Counting, Requests, NetBack;
    var u := TraceStep(t, a);
    if a.Loop? && t.s.loop == S.Send && u.s.sent != t.s.sent {
      assert u.data == t.data + [t.s.psn];
      assert t.s.psn in u.data;
    }
  }

  lemma ServerSaidStep(t: Trace, a: S.Action)
    requires LoopInv(t) && ServerSaid(t)
    ensures ServerSaid(TraceStep(t, a))
  {
    hide TraceStep, LoopInv, S.NtfFrame, S.InfoFrame, S.FinFrame, S.CxlFrame, S.DataFrame, S.Readable, SenderPackets;
    ServerSpoke(t, a);
    var u := TraceStep(t, a);
    forall i | 0 <= i < |u.s.sent| ensures FromServer(u, u.s.sent[i]) {
      if i < |t.s.sent| {
        assert u.s.sent[i] == t.s.sent[i];
        assert FromServer(t, t.s.sent[i]);
      }
    }
  }

  lemma DoneHeardDrive(s: S.Sender, timeUp: bool)
    requires InStep(s) && DoneHeard(S.DriverStep(s, timeUp))
    ensures DoneHeard(s)
  {
    hide SenderPackets, S.NtfFrame, S.InfoFrame, S.FinFrame, S.CxlFrame;
  }

  lemma DoneHeardDispatch(s: S.Sender, a: S.Action)
    requires InStep(s) && (a.Take? || a == S.Check || a == S.Result) && DoneHeard(S.Step(s, a))
    ensures DoneHeard(s) || (a.Take? && Intact(a.m, a.len) && IdOf(Get32(a.m, 16)) == Some(DONE))
  {
    hide SenderPackets, Intact, Get32, Checksum, S.DriverStep, S.LoopStep;
  }

  lemma DoneHeardLoop(s: S.Sender, io: bool)
    requires DoneHeard(S.LoopStep(s, io))
    ensures DoneHeard(s)
  {
    hide SenderPackets, S.CxlFrame, S.DataFrame, S.Readable;
  }

  /** DONE is heard only from a datagram that says DONE. */
  lemma DoneHeardStep(s: S.Sender, a: S.Action)
    requires InStep(s) && DoneHeard(S.Step(s, a))
    ensures DoneHeard(s) || (a.Take? && Intact(a.m, a.len) && IdOf(Get32(a.m, 16)) == Some(DONE))
  {
    hide InStep, Intact, Get32, S.DriverStep, S.LoopStep, S.Receive, S.CheckPsn, S.StoreResult, S.CxlFrame;
    match a
    case Drive(timeUp) => DoneHeardDrive(s, timeUp);
    case Loop(io) => DoneHeardLoop(s, io);
    case Abort =>
    case AbortEmit =>
    case _ => DoneHeardDispatch(s, a);
  }

  lemma ServeInv(w: W.World, a: S.Action)
    requires WorldInv(w)
    requires a.Take? && Intact(a.m, a.len) && IdOf(Get32(a.m, 16)) == Some(DONE) ==>
               DoneSaid(w) && DoneFrameOf(w.t.s.job) in w.cli.sent
    ensures WorldInv(w.(t := TraceStep(w.t, a)))
  {
    hide TraceStep, LoopInv, InStep, View, Intact, Get32, AllIn, Deliverable, DoneHeard, S.NtfFrame, S.InfoFrame,
      S.FinFrame, S.CxlFrame, S.DataFrame, R.ChkFrame, R.RdyFrame, R.DoneFrame, R.RtxFrame, R.ClientCxlFrame,
      Checksum, SenderPackets;
    var u := TraceStep(w.t, a);
    assert u.s == S.Step(w.t.s, a) by { StepOfTrace(w.t, a); }
    if a.Loop? { LoopInvLoop(w.t, a.io); } else { LoopInvOthers(w.t, a); }
    InStepStep(w.t, a);
    ServerSpoke(w.t, a);
    ServerSaidStep(w.t, a);
    if DoneHeard(u.s) {
      DoneHeardStep(w.t.s, a);
    }
    var v := w.(t := u);
    forall i | 0 <= i < |v.cli.sent| ensures FromClient(v, v.cli.sent[i]) {
      assert FromClient(w, w.cli.sent[i]);
    }
  }

  lemma StepOfTrace(t: Trace, a: S.Action)
    ensures TraceStep(t, a).s == S.Step(t.s, a)
  {
    hide S.Step;
  }

  // ---- The client's datagrams, read by the dispatcher ----

  lemma ClientFrameReads(id: MessageId, payload: seq<Byte>, m: Buffer, len: nat)
    requires |payload| <= PAYLOAD_SIZE && Holds(m, len, R.ClientFrame(id, payload))
    ensures Intact(m, len) && len == HEADER_SIZE + |payload| && Payload(m, len) == payload
        && IdOf(Get32(m, 16)) == Some(id)
  {
    hide Checksum, Packed, Intact, Get32, Read;
    Unpack(m, len, R.ClientHeader(id, |payload|), payload);
    ReadFields(m);
    IdOfCode(id);
  }

  lemma DoneMeansSaid(w: W.World, m: Buffer, len: nat, d: Datagram)
    requires FromClient(w, d) && Holds(m, len, d) && IdOf(Get32(m, 16)) == Some(DONE)
    ensures DoneSaid(w) && d == DoneFrameOf(w.t.s.job)
  {
    hide R.ClientFrame, Get32, Intact, Deliverable, AllIn, Put32, Payload, Checksum, SenderPackets;
    var j := w.t.s.job;
    if d == R.ChkFrame(w.cli.curVersion) {
      ClientFrameReads(CHK, Put32(w.cli.curVersion), m, len);
    } else if d == R.RdyFrame(j.version, S.Size(j), w.cli.gap) {
      ClientFrameReads(RDY, Put32(j.version) + Put32(S.Size(j)) + Put32(w.cli.gap), m, len);
    } else if d == R.ClientCxlFrame() {
      ClientFrameReads(CXL, [], m, len);
    } else if r: u32 :| 1 <= r < S.Tpn(j) && d == R.RtxFrame(r) {
      ClientFrameReads(RTX, Put32(r), m, len);
    }
  }

  lemma ToServerInv(w: W.World, orig: Buffer, m: Buffer, len: nat)
    requires WorldInv(w) && W.From(w.cli.sent, orig, m, len)
    ensures WorldInv(w.(t := TraceStep(w.t, S.Take(m, len))))
  {
    hide LoopInv, InStep, View, Links, ServerSaid, Intact, Get32, FromClient, DoneSaid, TraceStep, Damaged;
    if Intact(m, len) && IdOf(Get32(m, 16)) == Some(DONE) {
      W.AcceptedIsGenuine(orig, m, len);
      var i :| 0 <= i < |w.cli.sent| && w.cli.sent[i] == orig[..len];
      DoneMeansSaid(w, m, len, w.cli.sent[i]);
    }
    ServeInv(w, S.Take(m, len));
  }

  // ---- Receiver steps ----

  ghost predicate Fin(w: W.World) { w.t.s.driver == S.Returned(FIN) }

  /** Whatever reaches the receiver intact is one of the sender's own datagrams. */
  lemma ArrivesGenuine(w: W.World, orig: Buffer, m: Buffer, len: nat)
    requires ServerSaid(w.t) && W.From(w.t.s.sent, orig, m, len) && Intact(m, len)
    ensures Genuine(w.t.s.job, w.t.data, Fin(w), m, len)
  {
    hide Intact, Damaged, S.NtfFrame, S.InfoFrame, S.FinFrame, S.CxlFrame, S.DataFrame, S.Readable, SenderPackets;
    W.AcceptedIsGenuine(orig, m, len);
    var i :| 0 <= i < |w.t.s.sent| && w.t.s.sent[i] == orig[..len];
    assert FromServer(w.t, w.t.s.sent[i]);
  }

  lemma ConstantsKept(c: R.Client, e: R.Event)
    ensures R.Step(c, e).curVersion == c.curVersion && R.Step(c, e).gap == c.gap
  {
    hide Intact, Checksum, Get32, Payload, R.ClientCxlFrame, R.ChkFrame, R.RdyFrame, R.RtxFrame, R.DoneFrame,
      Packets, R.ExpectedLength;
  }

  /** A complete file stays complete until another session starts. */
  lemma AllInKept(c: R.Client, e: R.Event)
    requires ReceiverSafety.Sound(c) && AllIn(c) && !ReceiverSafety.StartsSession(c, e)
    ensures AllIn(R.Step(c, e))
  {
    hide Intact, Checksum, Get32, Payload, R.ClientCxlFrame, R.ChkFrame, R.RdyFrame, R.RtxFrame, R.DoneFrame,
      Packets, R.ExpectedLength;
    PacketsInRange(c.newSize);
  }

  /** A session is under way, or has its INFO, only after it was started. */
  lemma OnlyAfterStart(c: R.Client, e: R.Event)
    requires ReceiverSafety.Sound(c) && !ReceiverSafety.Underway(c) && c.newSize == 0
        && !ReceiverSafety.StartsSession(c, e)
    ensures var d := R.Step(c, e); !ReceiverSafety.Underway(d) && d.newSize == 0
  {
    hide R.Handle, R.Cancel, Get32, Checksum;
  }

  lemma DoneIsDeliverable(c: R.Client, j: S.Job)
    requires View(c, j) && c.status == DONE
    ensures Deliverable(j) && AllIn(c) && c.newVersion == j.version && c.newSize == S.Size(j)
        && c.newCrc == Checksum(j.file)
  {
    hide Checksum, Packets, SenderPackets;
    PacketsInRange(S.Size(j));
    CountsAgree(S.Size(j));
  }

  /** The one datagram a receiver step sends is of a kind the invariant knows. */
  lemma NewFromClient(w: W.World, e: R.Event, v: W.World)
    requires WorldInv(w) && v.t == w.t && v.cli == R.Step(w.cli, e) && View(v.cli, v.t.s.job)
    requires v.cli.sent != w.cli.sent
    ensures |v.cli.sent| == |w.cli.sent| + 1 && v.cli.sent[..|w.cli.sent|] == w.cli.sent
    ensures FromClient(v, v.cli.sent[|w.cli.sent|])
  {
    hide R.Step, LoopInv, InStep, Checksum, ServerSaid, ClientSaid, Links, SenderPackets, Packets, S.Size,
      R.ChkFrame, R.RdyFrame, R.DoneFrame, R.RtxFrame, R.ClientCxlFrame, ReceiverSafety.Verified, OnDisk,
      Deliverable, PrefixFor, Sendable;
    var c, d, j := w.cli, v.cli, v.t.s.job;
    ReceiverSafety.SpokeStep(c, e);
    ConstantsKept(c, e);
    if d.status == DONE {
      DoneIsDeliverable(d, j);
    }
  }

  lemma SaidKept(w: W.World, e: R.Event, sessions: nat)
    requires WorldInv(w) && DoneSaid(w)
    requires sessions == w.sessions + if ReceiverSafety.StartsSession(w.cli, e) then 1 else 0
    ensures DoneSaid(w.(cli := R.Step(w.cli, e), sessions := sessions))
  {
    hide R.Step, LoopInv, InStep, ServerSaid, ClientSaid, ReceiverSafety.Sound, OnDisk, Deliverable,
      ReceiverSafety.StartsSession;
    if AllIn(w.cli) && !ReceiverSafety.StartsSession(w.cli, e) {
      AllInKept(w.cli, e);
    }
  }

  lemma SentGrows(c: R.Client, e: R.Event)
    requires ReceiverSafety.Sound(c)
    ensures forall d :: d in c.sent ==> d in R.Step(c, e).sent
  {
    hide R.Step, ReceiverSafety.Sound, R.ChkFrame, R.RdyFrame, R.DoneFrame, R.RtxFrame, R.ClientCxlFrame;
    ReceiverSafety.SpokeStep(c, e);
  }

  lemma LinksKept(w: W.World, e: R.Event, sessions: nat)
    requires WorldInv(w) && Kept(w.cli, R.Step(w.cli, e), w.t.s.job, w.t.data, Fin(w))
    requires sessions == w.sessions + if ReceiverSafety.StartsSession(w.cli, e) then 1 else 0
    ensures Links(w.(cli := R.Step(w.cli, e), sessions := sessions))
  {
    hide R.Step, R.DoneFrame, LoopInv, InStep, ServerSaid, ClientSaid, ReceiverSafety.Sound, OnDisk, DoneSaid,
      DoneHeard, ReceiverSafety.StartsSession, ReceiverSafety.Underway, Checksum, SenderPackets;
    if DoneHeard(w.t.s) {
      SaidKept(w, e, sessions);
      SentGrows(w.cli, e);
    }
    ReceiverSafety.HandedStep(w.cli, e);
    if !ReceiverSafety.StartsSession(w.cli, e) && !ReceiverSafety.Underway(w.cli) && w.cli.newSize == 0 {
      OnlyAfterStart(w.cli, e);
    }
  }

  /** The joint invariant after a receiver step that keeps the view. */
  lemma ClientInv(w: W.World, e: R.Event, sessions: nat)
    requires WorldInv(w) && Kept(w.cli, R.Step(w.cli, e), w.t.s.job, w.t.data, Fin(w))
    requires sessions == w.sessions + if ReceiverSafety.StartsSession(w.cli, e) then 1 else 0
    ensures WorldInv(w.(cli := R.Step(w.cli, e), sessions := sessions))
  {
    hide R.Step, LoopInv, InStep, View, Checksum, ServerSaid, Links, SenderPackets, S.Size,
      ReceiverSafety.StartsSession, DoneSaid, R.ChkFrame, R.RdyFrame, R.DoneFrame, R.RtxFrame, R.ClientCxlFrame;
    var v := w.(cli := R.Step(w.cli, e), sessions := sessions);
    LinksKept(w, e, sessions);
    ConstantsKept(w.cli, e);
    if DoneSaid(w) {
      SaidKept(w, e, sessions);
    }
    if v.cli.sent != w.cli.sent {
      NewFromClient(w, e, v);
    }
    forall i | 0 <= i < |v.cli.sent| ensures FromClient(v, v.cli.sent[i]) {
      if i < |w.cli.sent| {
        assert v.cli.sent[i] == w.cli.sent[i];
        assert FromClient(w, w.cli.sent[i]);
      }
    }
  }

  lemma WorldInvStep(w: W.World, a: W.Act)
    requires WorldInv(w)
    ensures WorldInv(W.Step(w, a)) && W.Step(w, a).t.s.job == w.t.s.job
  {
    hide R.Step, LoopInv, InStep, View, ServerSaid, ClientSaid, Links, W.Conveys, TraceStep, Intact,
      ReceiverSafety.StartsSession;
    var j := w.t.s.job;
    match a
    case Serve(b) =>
      if !b.Take? {
        ServeInv(w, b);
        JobOfStep(w.t, b);
      }
    case ToServer(orig, m, len) =>
      if W.From(w.cli.sent, orig, m, len) {
        ToServerInv(w, orig, m, len);
        JobOfStep(w.t, S.Take(m, len));
      }
    case ToPort(orig, m, len) =>
      if W.From(w.t.s.sent, orig, m, len) {
        if Intact(m, len) { ArrivesGenuine(w, orig, m, len); }
        KeptKnock(w.cli, j, w.t.data, Fin(w), m, len);
        ClientInv(w, R.Knock(m, len), W.Step(w, a).sessions);
      }
    case ToSocket(orig, m, len, io) =>
      if W.From(w.t.s.sent, orig, m, len) {
        if Intact(m, len) { ArrivesGenuine(w, orig, m, len); }
        KeptArrive(w.cli, j, w.t.data, Fin(w), m, len, io);
        NoStart(w.cli, m, len, io);
        ClientInv(w, R.Arrive(m, len, io), w.sessions);
      }
    case Silence =>
      KeptSilence(w.cli, j, w.t.data, Fin(w));
      NoStart(w.cli, seq(MESSAGE_SIZE, _ => 0), 0, R.Io(true, true));
      ClientInv(w, R.Silence, w.sessions);
  }

  lemma NoStart(c: R.Client, m: Buffer, len: nat, io: R.Io)
    ensures !ReceiverSafety.StartsSession(c, R.Arrive(m, len, io)) && !ReceiverSafety.StartsSession(c, R.Silence)
  {
  }

  lemma KeptSilence(c: R.Client, j: S.Job, data: seq<u32>, fin: bool)
    requires View(c, j)
    ensures Kept(c, R.Step(c, R.Silence), j, data, fin)
  {
    hide View, R.Cancel;
    KeptCancel(c, j, data, fin);
  }

  lemma JobOfStep(t: Trace, a: S.Action)
    ensures TraceStep(t, a).s.job == t.s.job
  {
    hide S.Step;
    JobKept(t.s, a);
  }

  lemma {:induction false} WorldInvRun(w: W.World, acts: seq<W.Act>)
    requires WorldInv(w)
    ensures WorldInv(W.Run(w, acts)) && W.Run(w, acts).t.s.job == w.t.s.job
  {
    hide WorldInv, W.Step;
    if acts != [] {
      WorldInvRun(w, acts[..|acts| - 1]);
      WorldInvStep(W.Run(w, acts[..|acts| - 1]), acts[|acts| - 1]);
    }
  }
}
