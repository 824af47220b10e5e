/** That transfers do complete: a run from the start to FIN on both sides for every deliverable job,
    repair of a gap by retransmission, and exactly which jobs can complete. */
module Completion {
  import opened Wrappers
  import opened Words
  import opened Frame
  import opened BitwiseCrc
  import opened Segments
  import S = Sender
  import opened SenderSafety
  import opened SenderSession
  import R = Receiver
  import ReceiverSafety
  import opened ClientView
  import W = World
  import opened WorldSafety
  import opened EndToEnd

  // ---- Building runs ----

  lemma Extend(w: W.World, acts: seq<W.Act>, v: W.World, a: W.Act) returns (more: seq<W.Act>)
    requires v == W.Run(w, acts) && WorldInv(v)
    ensures more == acts + [a] && W.Step(v, a) == W.Run(w, more) && WorldInv(W.Step(v, a))
  {
    hide W.Step, WorldInv;
    more := acts + [a];
    assert more[..|more| - 1] == acts;
    WorldInvStep(v, a);
  }

  /** The receive buffer after `d` came in whole. */
  function Arrival(d: Datagram): (m: Buffer)
    requires |d| <= MESSAGE_SIZE
    ensures Holds(m, |d|, d)
  {
    d + seq(MESSAGE_SIZE - |d|, _ => 0)
  }

  lemma ServeEffect(w: W.World, b: S.Action)
    requires !b.Take?
    ensures var v := W.Step(w, W.Serve(b));
            v.t.s == S.Step(w.t.s, b) && v.cli == w.cli && v.sessions == w.sessions
              && v.t.data == w.t.data + SentData(w.t.s, b)
  {
    hide S.Step;
  }

  /** An undamaged delivery to the dispatcher. */
  function Upload(d: Datagram): W.Act
    requires |d| <= MESSAGE_SIZE
  {
    W.ToServer(Arrival(d), Arrival(d), |d|)
  }

  /** An undamaged delivery to the receiver's socket; its file operations succeed. */
  function Download(d: Datagram): W.Act
    requires |d| <= MESSAGE_SIZE
  {
    W.ToSocket(Arrival(d), Arrival(d), |d|, R.Io(true, true))
  }

  lemma UploadEffect(w: W.World, d: Datagram)
    requires |d| <= MESSAGE_SIZE && d in w.cli.sent
    ensures var v := W.Step(w, Upload(d));
            v.t.s == S.Step(w.t.s, S.Take(Arrival(d), |d|)) && v.cli == w.cli && v.sessions == w.sessions
              && v.t.data == w.t.data
  {
    hide S.Step, Arrival;
    assert w.t.data + [] == w.t.data;
  }

  lemma DownloadEffect(w: W.World, d: Datagram)
    requires |d| <= MESSAGE_SIZE && d in w.t.s.sent
    ensures var v := W.Step(w, Download(d));
            v.t == w.t && v.sessions == w.sessions
              && v.cli == R.Step(w.cli, R.Arrive(Arrival(d), |d|, R.Io(true, true)))
  {
    hide R.Step, Arrival;
  }

  lemma KnockEffect(w: W.World, d: Datagram)
    requires |d| <= MESSAGE_SIZE && d in w.t.s.sent
    ensures var v := W.Step(w, W.ToPort(Arrival(d), Arrival(d), |d|));
            var e := R.Knock(Arrival(d), |d|);
            && v.t == w.t && v.cli == R.Step(w.cli, e)
            && v.sessions == w.sessions + if ReceiverSafety.StartsSession(w.cli, e) then 1 else 0
  {
    hide R.Step, Arrival;
  }

  lemma FrameSizes(id: MessageId, payload: seq<Byte>)
    requires |payload| <= PAYLOAD_SIZE
    ensures |R.ClientFrame(id, payload)| == HEADER_SIZE + |payload|
  {
    hide Packed;
    PackedId(R.ClientHeader(id, |payload|), payload);
  }

  // ---- One packet after another ----

  /** The sender is about to send packet `p` and the receiver is waiting for it. */
  ghost predicate Aligned(w: W.World, p: u32) {
    var s, c := w.t.s, w.cli;
    && s.status == DATA && s.dispatch == S.Idle && s.loop == S.Send && s.psn == p && s.rtx == S.NO_PSN
    && (s.driver == S.Enter(S.Transfer) || s.driver == S.Waiting(S.Transfer, DATA))
    && p < S.Tpn(s.job)
    && c.active && c.listening && c.psn == p && c.status == (if p == 0 then RDY else DATA)
  }

  /** What accepting packet `p` does to the receiver. */
  lemma TakesData(c: R.Client, j: S.Job, p: u32)
    requires View(c, j) && Deliverable(j) && p < S.Tpn(j) && S.Readable(j, p)
    requires c.active && c.listening && c.psn == p && c.status == (if p == 0 then RDY else DATA)
    ensures |S.DataFrame(j, p)| <= MESSAGE_SIZE
    ensures var d := R.Step(c, R.Arrive(Arrival(S.DataFrame(j, p)), |S.DataFrame(j, p)|, R.Io(true, true)));
            && d.active && d.listening && d.psn == p + 1 && d.newVersion == j.version
            && (p + 1 < S.Tpn(j) ==> d.status == DATA)
            && (p + 1 == S.Tpn(j) ==>
                  && d.status == DONE && d.sent == c.sent + [DoneFrameOf(j)]
                  && d.disk == Some(Sendable(j)))
  {
    hide Intact, Checksum, SenderPackets, Packets, Get32, Payload, Chunk, Length, Covered, S.Readable, S.DataFrame,
      R.DoneFrame, R.ClientCxlFrame, R.RtxFrame, Arrival, ReceiverSafety.Verified, R.SayRtx, R.OnInfo, R.OnFin,
      R.OnCxl;
    DataFrameSize(j, p);
    var f := S.DataFrame(j, p);
    var m := Arrival(f);
    assert Holds(m, |f|, f);
    DataReads(j, p, m, |f|);
    IntactLength(m, |f|);
    LastLength(S.Size(j), p);
    PrefixGrows(j, p);
    ChunkInBounds(S.Size(j), p);
    PacketsInRange(S.Size(j));
    CountsAgree(S.Size(j));
  }

  lemma ServerFrameSize(j: S.Job, id: MessageId, tpl: u32, psn: u32, payload: seq<Byte>)
    requires S.ServerHeader(j, id, tpl, psn).pl <= |payload|
    ensures |S.ServerFrame(j, id, tpl, psn, payload)| == HEADER_SIZE + |payload|
  {
    hide Packed, Packets;
    PackedId(S.ServerHeader(j, id, tpl, psn), payload);
  }

  lemma DataFrameSize(j: S.Job, p: u32)
    requires p < S.Tpn(j) && S.Readable(j, p)
    ensures |S.DataFrame(j, p)| <= MESSAGE_SIZE
  {
    hide S.ServerFrame, SenderPackets, Packets, Offset, Length;
    ServerFrameSize(j, DATA, S.Size(j), p, j.file[Offset(p)..Offset(p) + Length(S.Size(j), p)]);
  }

  // One more action at the end of a run, by kind.

  lemma Serve(w: W.World, acts: seq<W.Act>, v: W.World, b: S.Action) returns (more: seq<W.Act>, u: W.World)
    requires v == W.Run(w, acts) && WorldInv(v) && !b.Take?
    ensures u == W.Run(w, more) && more == acts + [W.Serve(b)] && WorldInv(u)
    ensures u.t.s == S.Step(v.t.s, b) && u.cli == v.cli && u.sessions == v.sessions
        && u.t.data == v.t.data + SentData(v.t.s, b)
  {
    hide S.Step, W.Step, W.Run, WorldInv, SentData;
    ServeEffect(v, b);
    more := Extend(w, acts, v, W.Serve(b));
    u := W.Step(v, W.Serve(b));
  }

  lemma ToDispatcher(w: W.World, acts: seq<W.Act>, v: W.World, d: Datagram) returns (more: seq<W.Act>, u: W.World)
    requires v == W.Run(w, acts) && WorldInv(v) && |d| <= MESSAGE_SIZE && d in v.cli.sent
    ensures u == W.Run(w, more) && more == acts + [Upload(d)] && WorldInv(u)
    ensures u.t.s == S.Step(v.t.s, S.Take(Arrival(d), |d|))
    ensures u.cli == v.cli && u.sessions == v.sessions && u.t.data == v.t.data
  {
    hide S.Step, W.Step, W.Run, WorldInv, Arrival;
    UploadEffect(v, d);
    more := Extend(w, acts, v, Upload(d));
    u := W.Step(v, Upload(d));
  }

  lemma ToReceiver(w: W.World, acts: seq<W.Act>, v: W.World, d: Datagram) returns (more: seq<W.Act>, u: W.World)
    requires v == W.Run(w, acts) && WorldInv(v) && |d| <= MESSAGE_SIZE && d in v.t.s.sent
    ensures u == W.Run(w, more) && more == acts + [Download(d)] && WorldInv(u)
    ensures u.t == v.t && u.sessions == v.sessions
        && u.cli == R.Step(v.cli, R.Arrive(Arrival(d), |d|, R.Io(true, true)))
  {
    hide R.Step, W.Step, W.Run, WorldInv, Arrival;
    DownloadEffect(v, d);
    more := Extend(w, acts, v, Download(d));
    u := W.Step(v, Download(d));
  }

  lemma WorldView(w: W.World)
    requires WorldInv(w)
    ensures View(w.cli, w.t.s.job)
  {
    hide LoopInv, InStep, View, ServerSaid, ClientSaid, Links;
  }

  lemma SendOne(w: W.World, acts0: seq<W.Act>, v0: W.World, p: u32) returns (acts: seq<W.Act>, v: W.World)
    requires v0 == W.Run(w, acts0) && WorldInv(v0) && v0.t.s.loop == S.Send && v0.t.s.psn == p < S.Tpn(v0.t.s.job)
    ensures acts == acts0 + [W.Serve(S.Loop(true))] && v == W.Run(w, acts) && WorldInv(v) && v.cli == v0.cli
    ensures S.Readable(v0.t.s.job, p) && v.t.data == v0.t.data + [p]
    ensures v.t.s == v0.t.s.(sent := v0.t.s.sent + [S.DataFrame(v0.t.s.job, p)],
                             loop := if p + 1 == S.Tpn(v0.t.s.job) then S.TailCheck else S.Increment)
    ensures v.sessions == v0.sessions
  {
    hide WorldInv, W.Step, W.Run, SenderPackets, S.Readable, S.DataFrame;
    BodyIsReadable(v0.t.s.job, p);
    acts, v := Serve(w, acts0, v0, S.Loop(true));
    assert |v.t.s.sent| == |v0.t.s.sent| + 1;
  }

  /** From the increment, with no request pending, to the next send. */
  lemma RoundTheLoop(w: W.World, acts0: seq<W.Act>, v0: W.World, p: u32) returns (acts: seq<W.Act>, v: W.World)
    requires v0 == W.Run(w, acts0) && WorldInv(v0)
    requires v0.t.s.loop == S.Increment && v0.t.s.psn == p && p + 1 < S.Tpn(v0.t.s.job)
    requires v0.t.s.status != CXL && v0.t.s.rtx == S.NO_PSN
    ensures acts0 <= acts && v == W.Run(w, acts) && WorldInv(v) && v.cli == v0.cli
    ensures v.t.s == v0.t.s.(loop := S.Send, psn := p + 1)
    ensures v.sessions == v0.sessions
  {
    hide WorldInv, W.Step, W.Run, SenderPackets, S.DataFrame, S.Readable;
    acts, v := Serve(w, acts0, v0, S.Loop(true));
    acts, v := Serve(w, acts, v, S.Loop(true));
    acts, v := Serve(w, acts, v, S.Loop(true));
    acts, v := Serve(w, acts, v, S.Loop(true));
  }

  /** One loss-free turn: send, deliver, and round the loop to the next packet. */
  lemma OnePacket(w: W.World, acts0: seq<W.Act>, v0: W.World, p: u32) returns (acts: seq<W.Act>, v: W.World)
    requires v0 == W.Run(w, acts0) && WorldInv(v0) && Aligned(v0, p) && Deliverable(v0.t.s.job)
        && p + 1 < S.Tpn(v0.t.s.job)
    ensures acts0 <= acts && v == W.Run(w, acts) && WorldInv(v) && Aligned(v, p + 1) && v.t.s.job == v0.t.s.job
    ensures v.sessions == v0.sessions
  {
    hide WorldInv, W.Run, R.Step, SenderPackets, Deliverable, S.Readable, S.DataFrame, Arrival;
    var j := v0.t.s.job;
    acts, v := SendOne(w, acts0, v0, p);
    DataFrameSize(j, p);
    WorldView(v);
    TakesData(v.cli, j, p);
    acts, v := ToReceiver(w, acts, v, S.DataFrame(j, p));
    acts, v := RoundTheLoop(w, acts, v, p);
  }

  /** Both sides have finished, and the receiver has handed over the file. */
  ghost predicate Complete(w: W.World) {
    var j := w.t.s.job;
    && w.t.s.driver == S.Returned(FIN) && w.t.s.loop == S.Finished
    && w.cli.status == FIN && w.cli.disk == Some(Sendable(j))
    && w.cli.handed != [] && w.cli.handed[|w.cli.handed| - 1] == R.Delivery(Some(Sendable(j)), j.version)
  }

  lemma DoneTaken(s: S.Sender)
    requires s.status == DATA && s.dispatch == S.Idle
    ensures |DoneFrameOf(s.job)| <= MESSAGE_SIZE
    ensures S.Step(s, S.Take(Arrival(DoneFrameOf(s.job)), |DoneFrameOf(s.job)|))
            == s.(dispatch := S.PsnForDone(12, s.job.version, S.Size(s.job), Checksum(s.job.file)))
  {
    hide Checksum, R.ClientFrame, Get32, Intact, Put32, Payload, Arrival, S.DriverStep, S.LoopStep, S.CheckPsn,
      S.StoreResult;
    var j, f := s.job, DoneFrameOf(s.job);
    var payload := Put32(j.version) + Put32(S.Size(j)) + Put32(Checksum(j.file));
    FrameSizes(DONE, payload);
    ClientFrameReads(DONE, payload, Arrival(f), |f|);
    PayloadWords(Arrival(f), |f|, j.version, S.Size(j), Checksum(j.file));
  }

  lemma FinTaken(c: R.Client, j: S.Job)
    requires c.status == DONE && c.active && c.listening
    ensures |S.FinFrame(j)| <= MESSAGE_SIZE
    ensures var d := R.Step(c, R.Arrive(Arrival(S.FinFrame(j)), |S.FinFrame(j)|, R.Io(true, true)));
            d == c.(status := FIN, active := false, handed := c.handed + [R.Delivery(c.disk, c.newVersion)])
  {
    hide S.ServerFrame, Get32, Intact, Arrival, R.Cancel, R.OnNtf, R.OnInfo, R.OnData, R.OnCxl;
    ServerFrameSize(j, FIN, 0, 0, []);
    FinReads(j, Arrival(S.FinFrame(j)), |S.FinFrame(j)|);
  }

  /** The sender has returned FIN, the receiver has said DONE and has not yet seen FIN. */
  ghost predicate FinOnItsWay(w: W.World) {
    && w.t.s.driver == S.Returned(FIN) && w.t.s.loop == S.Finished && S.FinFrame(w.t.s.job) in w.t.s.sent
    && w.cli.active && w.cli.listening && w.cli.status == DONE
    && w.cli.disk == Some(Sendable(w.t.s.job)) && w.cli.newVersion == w.t.s.job.version
  }

  /** The last packet, then DONE after the loop has ended, then FIN is sent. */
  lemma ToFinSent(w: W.World, acts0: seq<W.Act>, v0: W.World, p: u32) returns (acts: seq<W.Act>, v: W.World)
    requires v0 == W.Run(w, acts0) && WorldInv(v0) && Aligned(v0, p) && Deliverable(v0.t.s.job)
    requires p + 1 == S.Tpn(v0.t.s.job)
    ensures acts0 <= acts && v == W.Run(w, acts) && WorldInv(v) && FinOnItsWay(v) && v.t.s.job == v0.t.s.job
    ensures v.sessions == v0.sessions
  {
    hide WorldInv, W.Run, R.Step, SenderPackets, Deliverable, S.Readable, S.DataFrame, S.FinFrame, R.DoneFrame,
      Arrival, Sendable, S.NtfFrame, S.InfoFrame, S.CxlFrame, S.Receive, Checksum;
    var j := v0.t.s.job;
    acts, v := SendOne(w, acts0, v0, p);
    DataFrameSize(j, p);
    WorldView(v);
    TakesData(v.cli, j, p);
    acts, v := ToReceiver(w, acts, v, S.DataFrame(j, p));
    acts, v := LoopEnds(w, acts, v, p);
    DoneTaken(v.t.s);
    acts, v := ToDispatcher(w, acts, v, DoneFrameOf(j));
    acts, v := DoneToFin(w, acts, v);
  }

  /** The last packet, DONE after the loop has ended, and FIN. */
  lemma LastPacket(w: W.World, acts0: seq<W.Act>, v0: W.World, p: u32) returns (acts: seq<W.Act>, v: W.World)
    requires v0 == W.Run(w, acts0) && WorldInv(v0) && Aligned(v0, p) && Deliverable(v0.t.s.job)
    requires p + 1 == S.Tpn(v0.t.s.job)
    ensures acts0 <= acts && v == W.Run(w, acts) && WorldInv(v) && Complete(v) && v.t.s.job == v0.t.s.job
  {
    hide WorldInv, W.Run, R.Step, Deliverable, Aligned, S.FinFrame, Arrival, Sendable;
    acts, v := ToFinSent(w, acts0, v0, p);
    FinTaken(v.cli, v.t.s.job);
    acts, v := ToReceiver(w, acts, v, S.FinFrame(v.t.s.job));
  }

  lemma LoopEnds(w: W.World, acts0: seq<W.Act>, v0: W.World, p: u32) returns (acts: seq<W.Act>, v: W.World)
    requires v0 == W.Run(w, acts0) && WorldInv(v0)
    requires v0.t.s.loop == S.TailCheck && v0.t.s.psn == p && p + 1 == S.Tpn(v0.t.s.job) && v0.t.s.rtx == S.NO_PSN
    requires v0.t.s.driver == S.Enter(S.Transfer) || v0.t.s.driver == S.Waiting(S.Transfer, DATA)
    requires v0.t.s.status == DATA
    ensures acts0 <= acts && v == W.Run(w, acts) && WorldInv(v) && v.cli == v0.cli
    ensures v.t.s == v0.t.s.(loop := S.Finished, psn := p + 1, driver := S.Waiting(S.Transfer, DATA))
    ensures v.sessions == v0.sessions
  {
    hide WorldInv, W.Step, W.Run, SenderPackets, S.DataFrame, S.Readable;
    acts, v := Serve(w, acts0, v0, S.Loop(true));
    acts, v := Serve(w, acts, v, S.Loop(true));
    acts, v := Serve(w, acts, v, S.Loop(true));
    acts, v := Serve(w, acts, v, S.Drive(false));
  }

  lemma DoneToFin(w: W.World, acts0: seq<W.Act>, v0: W.World) returns (acts: seq<W.Act>, v: W.World)
    requires v0 == W.Run(w, acts0) && WorldInv(v0)
    requires v0.t.s.psn == S.Tpn(v0.t.s.job) && v0.t.s.driver == S.Waiting(S.Transfer, DATA)
    requires v0.t.s.dispatch == S.PsnForDone(12, v0.t.s.job.version, S.Size(v0.t.s.job), Checksum(v0.t.s.job.file))
    ensures acts0 <= acts && v == W.Run(w, acts) && WorldInv(v) && v.cli == v0.cli
    ensures v.t.s == v0.t.s.(status := FIN, dispatch := S.Idle, driver := S.Returned(FIN),
        sent := v0.t.s.sent + [S.FinFrame(v0.t.s.job)])
    ensures v.sessions == v0.sessions
  {
    hide WorldInv, W.Step, W.Run, SenderPackets, S.LoopStep, S.Receive, S.NtfFrame, S.InfoFrame, S.CxlFrame,
      S.FinFrame, Checksum;
    acts, v := Serve(w, acts0, v0, S.Check);
    acts, v := Serve(w, acts, v, S.Result);
    acts, v := Serve(w, acts, v, S.Drive(false));
    acts, v := Serve(w, acts, v, S.Drive(false));
    acts, v := Serve(w, acts, v, S.Drive(false));
    acts, v := Serve(w, acts, v, S.Drive(false));
  }

  /** Packet by packet, from any aligned state to any later packet. */
  lemma {:induction false} ToPacket(w: W.World, acts0: seq<W.Act>, v0: W.World, p: u32, q: u32)
    returns (acts: seq<W.Act>, v: W.World)
    requires v0 == W.Run(w, acts0) && WorldInv(v0) && Aligned(v0, p) && Deliverable(v0.t.s.job)
    requires p <= q < S.Tpn(v0.t.s.job)
    ensures acts0 <= acts && v == W.Run(w, acts) && WorldInv(v) && v.t.s.job == v0.t.s.job && Aligned(v, q)
    ensures v.sessions == v0.sessions
    decreases q - p
  {
    hide WorldInv, W.Run, SenderPackets, Deliverable;
    acts, v := acts0, v0;
    if p < q {
      acts, v := OnePacket(w, acts0, v0, p);
      acts, v := ToPacket(w, acts, v, p + 1, q);
    }
  }

  /** From any aligned state the transfer can be completed. */
  lemma CompleteFrom(w: W.World, acts0: seq<W.Act>, v0: W.World, p: u32) returns (acts: seq<W.Act>, v: W.World)
    requires v0 == W.Run(w, acts0) && WorldInv(v0) && Aligned(v0, p) && Deliverable(v0.t.s.job)
    ensures acts0 <= acts && v == W.Run(w, acts) && WorldInv(v) && Complete(v) && v.t.s.job == v0.t.s.job
  {
    hide WorldInv, W.Run, SenderPackets, Deliverable, Complete;
    acts, v := ToPacket(w, acts0, v0, p, S.Tpn(v0.t.s.job) - 1);
    acts, v := LastPacket(w, acts, v, S.Tpn(v0.t.s.job) - 1);
  }

  // ---- The handshake ----

  function Notified(j: S.Job): S.Sender {
    S.Start(j).(driver := S.Waiting(S.Notify, NTF), sent := [S.NtfFrame(j)])
  }

  function Checked(j: S.Job, version: u32): S.Sender {
    Notified(j).(status := CHK, curVersion := version, driver := S.Store(S.Inform))
  }

  function Informed(j: S.Job, version: u32): S.Sender {
    Checked(j, version).(status := INFO, driver := S.Waiting(S.Inform, INFO), sent := [S.NtfFrame(j), S.InfoFrame(j)])
  }

  function Readied(j: S.Job, version: u32): S.Sender {
    Informed(j, version).(status := RDY, driver := S.Store(S.Transfer))
  }

  function Sending(j: S.Job, version: u32): S.Sender {
    Readied(j, version).(status := DATA, driver := S.Waiting(S.Transfer, DATA), loop := S.Send)
  }

  lemma Notify(w: W.World, j: S.Job) returns (acts: seq<W.Act>, v: W.World)
    requires WorldInv(w) && w.t.s == S.Start(j)
    ensures v == W.Run(w, acts) && WorldInv(v) && v.t.s == Notified(j) && v.cli == w.cli
    ensures v.sessions == w.sessions
  {
    hide WorldInv, W.Step, SenderPackets, S.LoopStep, S.Receive, S.CheckPsn, S.StoreResult, S.NtfFrame, S.InfoFrame,
      S.CxlFrame, S.FinFrame;
    acts, v := Serve(w, [], w, S.Drive(false));
    acts, v := Serve(w, acts, v, S.Drive(false));
    acts, v := Serve(w, acts, v, S.Drive(false));
  }

  lemma AnswerNtf(c: R.Client, j: S.Job)
    requires !c.active
    ensures |S.NtfFrame(j)| <= MESSAGE_SIZE
    ensures ReceiverSafety.StartsSession(c, R.Knock(Arrival(S.NtfFrame(j)), |S.NtfFrame(j)|))
    ensures var d := R.Step(c, R.Knock(Arrival(S.NtfFrame(j)), |S.NtfFrame(j)|));
            && d.active && d.listening && d.status == CHK && d.newVersion == j.version && d.psn == 0 && d.newSize == 0
            && d.curVersion == c.curVersion && d.gap == c.gap && d.sent == c.sent + [R.ChkFrame(c.curVersion)]
  {
    hide S.ServerFrame, Get32, Intact, Arrival, R.Cancel, R.ChkFrame, R.OnInfo, R.OnData, R.OnFin, R.OnCxl;
    ServerFrameSize(j, NTF, 4, 0, Put32(j.version));
    NtfReads(j, Arrival(S.NtfFrame(j)), |S.NtfFrame(j)|);
  }

  lemma InfoFrameSize(j: S.Job)
    ensures |S.InfoFrame(j)| == HEADER_SIZE + 12
  {
    hide S.ServerFrame, Checksum;
    ServerFrameSize(j, INFO, 12, 0, Put32(j.version) + Put32(S.Size(j)) + Put32(Checksum(j.file)));
  }

  lemma AnswerInfo(c: R.Client, j: S.Job)
    requires c.active && c.listening && c.status == CHK && c.newVersion == j.version && c.psn == 0 && S.Size(j) != 0
    ensures |S.InfoFrame(j)| <= MESSAGE_SIZE
    ensures var d := R.Step(c, R.Arrive(Arrival(S.InfoFrame(j)), |S.InfoFrame(j)|, R.Io(true, true)));
            && d.active && d.listening && d.status == RDY && d.psn == 0
            && d.sent == c.sent + [R.RdyFrame(j.version, S.Size(j), c.gap)]
  {
    hide S.ServerFrame, Get32, Intact, Arrival, R.Cancel, R.RdyFrame, R.OnNtf, R.OnData, R.OnFin, R.OnCxl, Checksum,
      Packets;
    InfoFrameSize(j);
    InfoReads(j, Arrival(S.InfoFrame(j)), |S.InfoFrame(j)|);
  }

  lemma ChkTaken(s: S.Sender, version: u32)
    requires s.status == NTF && s.dispatch == S.Idle
    ensures |R.ChkFrame(version)| <= MESSAGE_SIZE
    ensures S.Step(s, S.Take(Arrival(R.ChkFrame(version)), |R.ChkFrame(version)|))
            == s.(curVersion := version, dispatch := S.StoreStatus(CHK))
  {
    hide R.ClientFrame, Get32, Intact, Put32, Payload, Arrival, S.DriverStep, S.LoopStep, S.CheckPsn, S.StoreResult;
    var f := R.ChkFrame(version);
    FrameSizes(CHK, Put32(version));
    ClientFrameReads(CHK, Put32(version), Arrival(f), |f|);
    PayloadWord(Arrival(f), |f|, version);
  }

  lemma RdyTaken(s: S.Sender, version: u32, size: u32, gap: u32)
    requires s.status == INFO && s.dispatch == S.Idle
    ensures |R.RdyFrame(version, size, gap)| <= MESSAGE_SIZE
    ensures S.Step(s, S.Take(Arrival(R.RdyFrame(version, size, gap)), |R.RdyFrame(version, size, gap)|))
            == s.(gap := S.Clamp(gap), dispatch := S.StoreStatus(RDY))
  {
    hide R.ClientFrame, Get32, Intact, Put32, Payload, Arrival, S.Clamp, S.DriverStep, S.LoopStep, S.CheckPsn,
      S.StoreResult;
    var f := R.RdyFrame(version, size, gap);
    var payload := Put32(version) + Put32(size) + Put32(gap);
    FrameSizes(RDY, payload);
    ClientFrameReads(RDY, payload, Arrival(f), |f|);
    PayloadWords(Arrival(f), |f|, version, size, gap);
  }

  /** NTF answered by CHK, and the driver told. */
  lemma NtfExchange(w: W.World, acts0: seq<W.Act>, v0: W.World, j: S.Job) returns (acts: seq<W.Act>, v: W.World)
    requires v0 == W.Run(w, acts0) && WorldInv(v0) && v0.t.s == Notified(j) && !v0.cli.active
    ensures v == W.Run(w, acts) && WorldInv(v) && v.t.s == Checked(j, v0.cli.curVersion)
    ensures v.cli.active && v.cli.listening && v.cli.status == CHK && v.cli.newVersion == j.version && v.cli.psn == 0
    ensures v.cli.curVersion == v0.cli.curVersion && v.cli.gap == v0.cli.gap
    ensures v.sessions == v0.sessions + 1
  {
    hide WorldInv, W.Step, W.Run, R.Step, S.LoopStep, S.Receive, S.CheckPsn, S.NtfFrame, S.InfoFrame, S.CxlFrame,
      S.FinFrame, R.ChkFrame, Arrival;
    AnswerNtf(v0.cli, j);
    var f := S.NtfFrame(j);
    KnockEffect(v0, f);
    acts := Extend(w, acts0, v0, W.ToPort(Arrival(f), Arrival(f), |f|));
    v := W.Step(v0, W.ToPort(Arrival(f), Arrival(f), |f|));
    ChkTaken(v.t.s, v.cli.curVersion);
    acts, v := ToDispatcher(w, acts, v, R.ChkFrame(v.cli.curVersion));
    acts, v := Serve(w, acts, v, S.Result);
    acts, v := Serve(w, acts, v, S.Drive(false));
    acts, v := Serve(w, acts, v, S.Drive(false));
  }

  /** INFO sent, answered by RDY, and the driver told. */
  lemma InfoExchange(w: W.World, acts0: seq<W.Act>, v0: W.World, j: S.Job) returns (acts: seq<W.Act>, v: W.World)
    requires v0 == W.Run(w, acts0) && WorldInv(v0) && v0.t.s == Checked(j, v0.cli.curVersion) && S.Size(j) != 0
    requires v0.cli.active && v0.cli.listening && v0.cli.status == CHK && v0.cli.newVersion == j.version
        && v0.cli.psn == 0 && v0.cli.gap == 100
    ensures v == W.Run(w, acts) && WorldInv(v) && v.t.s == Readied(j, v0.cli.curVersion)
    ensures v.cli.active && v.cli.listening && v.cli.status == RDY && v.cli.psn == 0
    ensures v.sessions == v0.sessions
  {
    hide WorldInv, W.Step, W.Run, R.Step, S.LoopStep, S.Receive, S.CheckPsn, S.NtfFrame, S.InfoFrame, S.CxlFrame,
      S.FinFrame, R.RdyFrame, Arrival;
    acts, v := Serve(w, acts0, v0, S.Drive(false));
    acts, v := Serve(w, acts, v, S.Drive(false));
    acts, v := Serve(w, acts, v, S.Drive(false));
    AnswerInfo(v.cli, j);
    acts, v := ToReceiver(w, acts, v, S.InfoFrame(j));
    RdyTaken(v.t.s, j.version, S.Size(j), 100);
    acts, v := ToDispatcher(w, acts, v, R.RdyFrame(j.version, S.Size(j), 100));
    acts, v := Serve(w, acts, v, S.Result);
    acts, v := Serve(w, acts, v, S.Drive(false));
    acts, v := Serve(w, acts, v, S.Drive(false));
  }

  /** The transfer is started and the loop comes to its first packet. */
  lemma BeginSending(w: W.World, acts0: seq<W.Act>, v0: W.World, j: S.Job, version: u32)
    returns (acts: seq<W.Act>, v: W.World)
    requires v0 == W.Run(w, acts0) && WorldInv(v0) && v0.t.s == Readied(j, version) && S.Tpn(j) > 0
    ensures v == W.Run(w, acts) && WorldInv(v) && v.t.s == Sending(j, version) && v.cli == v0.cli
    ensures v.sessions == v0.sessions
  {
    hide WorldInv, W.Step, W.Run, S.Receive, S.CheckPsn, S.StoreResult, S.NtfFrame, S.InfoFrame, S.CxlFrame,
      S.FinFrame, S.DataFrame, S.Readable, SenderPackets;
    acts, v := Serve(w, acts0, v0, S.Drive(false));
    acts, v := Serve(w, acts, v, S.Drive(false));
    acts, v := Serve(w, acts, v, S.Drive(false));
    acts, v := Serve(w, acts, v, S.Loop(true));
    acts, v := Serve(w, acts, v, S.Loop(true));
    acts, v := Serve(w, acts, v, S.Loop(true));
    acts, v := Serve(w, acts, v, S.Loop(true));
    acts, v := Serve(w, acts, v, S.Loop(true));
  }

  // ---- The results ----

  /** The handshake, up to the first packet. */
  lemma StartSending(j: S.Job, curVersion: u32, leftover: Option<seq<Byte>>)
    returns (acts: seq<W.Act>, v: W.World)
    requires Deliverable(j)
    ensures v == After(j, curVersion, leftover, acts) && WorldInv(v) && v.t.s.job == j && Aligned(v, 0)
    ensures v.sessions == 1
  {
    hide WorldInv, W.Run, SenderPackets, Checksum, Sendable;
    var w := W.Initial(j, curVersion, leftover);
    InitialInv(j, curVersion, leftover);
    CountsAgree(S.Size(j));
    acts, v := Notify(w, j);
    acts, v := NtfExchange(w, acts, v, j);
    acts, v := InfoExchange(w, acts, v, j);
    acts, v := BeginSending(w, acts, v, j, curVersion);
  }

  lemma SomePackets(j: S.Job)
    requires Deliverable(j)
    ensures S.Tpn(j) > 1
  {
    CountsAgree(S.Size(j));
  }

  /** For every deliverable job there is a run from the start to FIN on both sides, with the
      receiver's file handed over and equal to the source. */
  lemma CompletionWitness(j: S.Job, curVersion: u32, leftover: Option<seq<Byte>>) returns (acts: seq<W.Act>)
    requires Deliverable(j)
    ensures Complete(After(j, curVersion, leftover, acts)) && After(j, curVersion, leftover, acts).t.s.job == j
  {
    hide WorldInv, W.Run, Aligned, Complete, Deliverable;
    var v;
    acts, v := StartSending(j, curVersion, leftover);
    acts, v := CompleteFrom(W.Initial(j, curVersion, leftover), acts, v, 0);
  }

  /** Exactly the deliverable jobs can ever be completed: over all runs of the whole system,
      `StartFileTransfer` can return FIN if and only if the (32-bit) size is above 1408 and not a
      multiple of 1408, rounding it up does not wrap, and the announced checksum is that of the
      bytes the size announces. */
  lemma CompletableIffDeliverable(j: S.Job, curVersion: u32, leftover: Option<seq<Byte>>)
    ensures (exists acts :: After(j, curVersion, leftover, acts).t.s.driver == S.Returned(FIN)) <==> Deliverable(j)
  {
    hide After, Deliverable;
    if Deliverable(j) {
      var acts := CompletionWitness(j, curVersion, leftover);
      CompleteReturned(After(j, curVersion, leftover, acts));
    }
    forall acts | After(j, curVersion, leftover, acts).t.s.driver == S.Returned(FIN) ensures Deliverable(j) {
      ReturnedDeliverable(j, curVersion, leftover, acts);
    }
  }

  lemma CompleteReturned(w: W.World)
    requires Complete(w)
    ensures w.t.s.driver == S.Returned(FIN)
  {
    hide Sendable;
  }

  lemma ReturnedDeliverable(j: S.Job, curVersion: u32, leftover: Option<seq<Byte>>, acts: seq<W.Act>)
    requires After(j, curVersion, leftover, acts).t.s.driver == S.Returned(FIN)
    ensures Deliverable(j)
  {
    hide After, LoopInv, InStep, View, ServerSaid, ClientSaid, Deliverable, AllIn, R.DoneFrame, Checksum;
    AfterInv(j, curVersion, leftover, acts);
    assert DoneHeard(After(j, curVersion, leftover, acts).t.s);
  }

  lemma RunNothing(w: W.World)
    ensures W.Run(w, []) == w
  {
    hide W.Step;
  }

  lemma TpnSmall(w: W.World)
    requires WorldInv(w)
    ensures S.Tpn(w.t.s.job) < S.NO_PSN
  {
    hide InStep, View, ServerSaid, ClientSaid, Links, SenderPackets, Coverage, Counting, Requests;
  }
}
