/** What holds in every state of every run of sender, receiver and network. */
module EndToEnd {
  import opened Wrappers
  import opened Words
  import opened Frame
  import opened BitwiseCrc
  import opened Segments
  import S = Sender
  import opened SenderSafety
  import opened SenderSession
  import R = Receiver
  import ReceiverSafety
  import opened ClientView
  import W = World
  import opened WorldSafety

  /** The state after `acts`, from the start of one transfer on an empty network. */
  ghost function After(j: S.Job, curVersion: u32, leftover: Option<seq<Byte>>, acts: seq<W.Act>): W.World {
    W.Run(W.Initial(j, curVersion, leftover), acts)
  }

  lemma AfterRuns(j: S.Job, curVersion: u32, leftover: Option<seq<Byte>>, acts: seq<W.Act>)
    ensures After(j, curVersion, leftover, acts) == W.Run(W.Initial(j, curVersion, leftover), acts)
  {
    hide W.Run;
  }

  lemma AfterInv(j: S.Job, curVersion: u32, leftover: Option<seq<Byte>>, acts: seq<W.Act>)
    ensures var w := After(j, curVersion, leftover, acts); WorldInv(w) && w.t.s.job == j
  {
    hide WorldInv, W.Run;
    InitialInv(j, curVersion, leftover);
    WorldInvRun(W.Initial(j, curVersion, leftover), acts);
  }

  /** Prefix safety: what the receiver has written is exactly the first `psn` packets' worth of the
      file, whatever retransmissions, losses, duplicates, reorderings and damage there were. */
  lemma PrefixSafety(j: S.Job, curVersion: u32, leftover: Option<seq<Byte>>, acts: seq<W.Act>)
    ensures var c := After(j, curVersion, leftover, acts).cli;
            var k := c.psn * PAYLOAD_SIZE;
            var n := if k <= S.Size(j) then k else S.Size(j);
            && (c.status == RDY || c.status == DATA ==> c.disk == Some(j.file[..n]))
            && (c.psn >= 1 ==> c.disk == None || c.disk == Some(j.file[..n]))
            && (c.status == DONE ==> c.disk == Some(j.file[..S.Size(j)]))
  {
    hide LoopInv, InStep, ServerSaid, ClientSaid, Links, Checksum, After, SenderPackets, Packets;
    AfterInv(j, curVersion, leftover, acts);
  }

  lemma FinStays(w: W.World, acts: seq<W.Act>)
    requires WorldInv(w) && w.t.s.driver == S.Returned(FIN)
    ensures W.Run(w, acts).t.s.driver == S.Returned(FIN) && w.sessions <= W.Run(w, acts).sessions
  {
    hide WorldInv, W.Step;
    if acts != [] {
      var before := acts[..|acts| - 1];
      FinStays(w, before);
      WorldInvRun(w, before);
      FinStaysStep(W.Run(w, before), acts[|acts| - 1]);
    }
  }

  lemma FinStaysStep(w: W.World, a: W.Act)
    requires WorldInv(w) && w.t.s.driver == S.Returned(FIN)
    ensures W.Step(w, a).t.s.driver == S.Returned(FIN) && w.sessions <= W.Step(w, a).sessions
  {
    hide LoopInv, InStep, View, ServerSaid, ClientSaid, Links, TraceStep, R.Step, W.From,
      ReceiverSafety.StartsSession;
    match a
    case Serve(b) => ServerSpoke(w.t, b);
    case ToServer(orig, m, len) => ServerSpoke(w.t, S.Take(m, len));
    case _ =>
  }

  /** Agreement: once `StartFileTransfer` has returned FIN, the receiver has sent DONE for this job,
      and for as long as it has begun only one session its file is, byte for byte, the part of the
      source that a 32-bit length can announce: the source itself unless that has 2^32 bytes or more. */
  lemma Agreement(j: S.Job, curVersion: u32, leftover: Option<seq<Byte>>, acts: seq<W.Act>, more: seq<W.Act>)
    requires After(j, curVersion, leftover, acts).t.s.driver == S.Returned(FIN)
    ensures var w := W.Run(After(j, curVersion, leftover, acts), more);
            && DoneFrameOf(j) in w.cli.sent
            && w.sessions >= 1
            && (w.sessions == 1 ==> w.cli.disk == Some(Sendable(j)))
            && (w.sessions == 1 ==> (w.cli.disk == Some(j.file) <==> |j.file| < 0x1_0000_0000))
  {
    hide LoopInv, InStep, ServerSaid, ClientSaid, After, Checksum, R.DoneFrame, SenderPackets, Packets,
      ReceiverSafety.Sound;
    AfterInv(j, curVersion, leftover, acts);
    var v := After(j, curVersion, leftover, acts);
    WorldInvRun(v, more);
    FinStays(v, more);
    var w := W.Run(v, more);
    assert DoneHeard(w.t.s);
    if |j.file| < 0x1_0000_0000 {
      assert j.file[..|j.file|] == j.file;
    } else {
      assert |j.file[..S.Size(j)]| < |j.file|;
    }
  }

  /** The file handler is invoked only after the sender accepted DONE and sent FIN, at most once a
      session, and always with the source's contents and the sender's version. */
  lemma HandlerGetsSource(j: S.Job, curVersion: u32, leftover: Option<seq<Byte>>, acts: seq<W.Act>)
    ensures var w := After(j, curVersion, leftover, acts);
            && (w.cli.handed != [] ==> w.t.s.driver == S.Returned(FIN) && Deliverable(j))
            && |w.cli.handed| <= w.sessions
            && (forall i :: 0 <= i < |w.cli.handed| ==>
                  w.cli.handed[i] == R.Delivery(Some(j.file[..S.Size(j)]), j.version))
  {
    hide LoopInv, InStep, ServerSaid, ClientSaid, After, Checksum, R.DoneFrame, SenderPackets, Packets,
      ReceiverSafety.Sound, Deliverable;
    AfterInv(j, curVersion, leftover, acts);
    var w := After(j, curVersion, leftover, acts);
    if w.cli.handed != [] {
      assert DoneHeard(w.t.s);
    }
  }

  predicate IsRtx(d: Datagram) {
    |d| >= HEADER_SIZE && IdOf(Get32(d, 16)) == Some(RTX)
  }

  /** The receiver never runs ahead of the sender, and never asks for what it cannot need. */
  lemma NeverAhead(j: S.Job, curVersion: u32, leftover: Option<seq<Byte>>, acts: seq<W.Act>)
    ensures var w := After(j, curVersion, leftover, acts);
            && (w.cli.status == DATA ==> 1 <= w.cli.psn < S.Tpn(j))
            && (w.cli.psn >= 1 ==> w.cli.psn - 1 in w.t.data && w.cli.psn <= w.t.peak + 1)
            && (forall i :: 0 <= i < |w.cli.sent| && IsRtx(w.cli.sent[i]) ==>
                  exists r: u32 :: 1 <= r < S.Tpn(j) && w.cli.sent[i] == R.RtxFrame(r))
  {
    hide InStep, ServerSaid, After, Checksum, SenderPackets, Packets, R.ClientFrame, Get32, OnDisk, DoneSaid,
      Requests, Counting;
    AfterInv(j, curVersion, leftover, acts);
    var w := After(j, curVersion, leftover, acts);
    forall i | 0 <= i < |w.cli.sent| && IsRtx(w.cli.sent[i])
      ensures exists r: u32 :: 1 <= r < S.Tpn(j) && w.cli.sent[i] == R.RtxFrame(r)
    {
      assert FromClient(w, w.cli.sent[i]);
      NotRtx(w, w.cli.sent[i]);
    }
  }

  lemma NotRtx(w: W.World, d: Datagram)
    requires IsRtx(d)
    ensures d != R.ChkFrame(w.cli.curVersion) && d != R.ClientCxlFrame()
    ensures d != R.RdyFrame(w.t.s.job.version, S.Size(w.t.s.job), w.cli.gap) && d != DoneFrameOf(w.t.s.job)
  {
    hide R.ClientFrame, Get32, Checksum, IdOf;
    var j := w.t.s.job;
    R.ClientFrameId(CHK, Put32(w.cli.curVersion));
    R.ClientFrameId(CXL, []);
    R.ClientFrameId(RDY, Put32(j.version) + Put32(S.Size(j)) + Put32(w.cli.gap));
    R.ClientFrameId(DONE, Put32(j.version) + Put32(S.Size(j)) + Put32(Checksum(j.file)));
  }
}
