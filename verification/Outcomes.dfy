/** What one datagram does, exactly: the sender's and the receiver's `OnReceive` seen from outside, for
    any datagram whatever, refusals and silent discards included. */
module Outcomes {
  import opened Wrappers
  import opened Words
  import opened Frame
  import opened BitwiseCrc
  import opened Segments
  import S = Sender
  import opened SenderSafety
  import opened SenderSession
  import R = Receiver
  import ReceiverSafety
  import opened WorldSafety
  import opened Completion

  function Id(m: Buffer): Option<MessageId> { IdOf(Get32(m, 16)) }

  // ---- The sender ----

  /** The dispatcher takes a datagram and comes to the end of its handling undisturbed. */
  function Handled(s: S.Sender, m: Buffer, len: nat): S.Sender {
    S.StoreResult(S.CheckPsn(S.Step(s, S.Take(m, len))))
  }

  lemma HandledIsRun(s: S.Sender, m: Buffer, len: nat)
    ensures S.Run(s, [S.Take(m, len), S.Check, S.Result]) == Handled(s, m, len)
  {
    hide S.Receive, S.CheckPsn, S.StoreResult, S.DriverStep, S.LoopStep;
    var a, b, c := [S.Take(m, len)], [S.Take(m, len), S.Check], [S.Take(m, len), S.Check, S.Result];
    assert a[..0] == [] && b[..1] == a && c[..2] == b;
    assert S.Run(s, a) == S.Step(S.Run(s, []), S.Take(m, len));
    assert S.Run(s, b) == S.Step(S.Run(s, a), S.Check);
  }

  /** A reply is taken in exactly in the status that waits for it and at its own length; DONE only with
      the announced fields and the psn at the packet count, a request only up to the psn. */
  lemma RepliesTaken(s: S.Sender, m: Buffer, len: nat)
    requires s.dispatch == S.Idle && Intact(m, len)
    ensures var u := Handled(s, m, len);
            && (Id(m) == Some(CHK) ==>
                  u == if s.status == NTF && len == 36 then s.(status := CHK, curVersion := Get32(m, 32)) else s)
            && (Id(m) == Some(RDY) ==>
                  u == if s.status == INFO && len == 44 then s.(status := RDY, gap := S.Clamp(Get32(m, 40))) else s)
            && (Id(m) == Some(RTX) ==>
                  u == if s.status == DATA && len == 36 && Get32(m, 32) <= s.psn then s.(rtx := Get32(m, 32)) else s)
  {
    hide Intact, Get32, Checksum, S.Clamp, S.DriverStep, S.LoopStep, SenderPackets;
  }

  lemma DoneTakenOrNot(s: S.Sender, m: Buffer, len: nat)
    requires s.dispatch == S.Idle && Intact(m, len) && Id(m) == Some(DONE)
    ensures Handled(s, m, len)
            == if s.status == DATA && s.psn == S.Tpn(s.job) && len == 44 && Get32(m, 32) == s.job.version
                  && Get32(m, 36) == S.Size(s.job) && Get32(m, 40) == Checksum(s.job.file)
               then s.(status := DONE) else s
  {
    hide Intact, Get32, Checksum, S.Clamp, S.DriverStep, S.LoopStep, SenderPackets;
  }

  /** A peer's CXL of no payload cancels, in any status; one with a payload, a damaged datagram, and any
      id that is not the receiver's to send change nothing. */
  lemma CancelTaken(s: S.Sender, m: Buffer, len: nat)
    requires s.dispatch == S.Idle
    ensures var u := Handled(s, m, len);
            && (Intact(m, len) && Id(m) == Some(CXL) ==> u == if len == 32 then s.(status := CXL) else s)
            && (!Intact(m, len) || Id(m) !in {Some(CHK), Some(RDY), Some(RTX), Some(DONE), Some(CXL)} ==> u == s)
  {
    hide Intact, Get32, Checksum, S.Clamp, S.DriverStep, S.LoopStep, SenderPackets;
  }

  /** The receiver's CXL, taken in during the data phase, stops the loop: at most one more DATA datagram
      is sent over every continuation. */
  lemma PeerStopsTheLoop(j: S.Job, acts: seq<S.Action>, m: Buffer, len: nat, more: seq<S.Action>)
    requires var s := S.Run(S.Start(j), acts);
             s.dispatch == S.Idle && (s.loop != S.NotStarted || s.driver == S.Emit(S.Transfer))
    requires Holds(m, len, R.ClientCxlFrame())
    ensures var t := TraceRun(Begun(j), acts + [S.Take(m, len), S.Check, S.Result]);
            t.s == S.Run(S.Start(j), acts).(status := CXL) && |TraceRun(t, more).data| <= |t.data| + 1
  {
    hide S.Run, S.Start, Intact, Get32, TraceRun, TraceStep, R.ClientFrame, Handled;
    var s := S.Run(S.Start(j), acts);
    var taken := acts + [S.Take(m, len), S.Check, S.Result];
    ClientFrameReads(CXL, [], m, len);
    CancelTaken(s, m, len);
    HandledIsRun(s, m, len);
    S.RunOn(S.Start(j), acts, [S.Take(m, len), S.Check, S.Result]);
    TraceIsRun(j, taken);
    CancellationStopsTheLoop(j, taken, more);
  }

  // ---- The receiver ----

  /** The session is cancelled: the peer is told, and the file is left as it is. */
  ghost predicate Refused(c: R.Client, d: R.Client) {
    && d.status == CXL && !d.active && d.sent == c.sent + [R.ClientCxlFrame()]
    && d.disk == c.disk && d.handed == c.handed && d.psn == c.psn
  }

  /** Damaged datagrams and ids that are not the sender's are dropped without a trace. */
  lemma Dropped(c: R.Client, m: Buffer, len: nat, io: R.Io)
    requires !Intact(m, len) || Id(m) !in {Some(NTF), Some(INFO), Some(DATA), Some(FIN), Some(CXL)}
    ensures R.Step(c, R.Arrive(m, len, io)) == c
  {
    hide Intact, Get32, R.OnNtf, R.OnInfo, R.OnData, R.OnFin, R.OnCxl;
  }

  /** At the well-known port a client in session discards everything, and an idle one all but NTF. */
  lemma PortDiscards(c: R.Client, m: Buffer, len: nat)
    requires c.active || !R.IsNtf(m)
    ensures R.Step(c, R.Knock(m, len)) == c
  {
    hide Get32, R.Handle;
  }

  /** INFO is answered by RDY exactly in CHK, at its own length, for the version NTF named and a size
      other than 0, if the file can be opened; in every other case the session is cancelled. */
  lemma InfoOutcome(c: R.Client, m: Buffer, len: nat, io: R.Io)
    requires c.active && c.listening && Intact(m, len) && Id(m) == Some(INFO)
    ensures var d := R.Step(c, R.Arrive(m, len, io));
            var right := c.status == CHK && len == 44 && Get32(m, 32) == c.newVersion && Get32(m, 36) != 0;
            && (d.status == RDY <==> right && io.opens)
            && (d.status == RDY ==>
                  && d.newSize == Get32(m, 36) && d.newCrc == Get32(m, 40) && d.total == Packets(d.newSize)
                  && d.open && d.disk == Some([]) && d.active && d.psn == c.psn && d.newVersion == c.newVersion
                  && d.sent == c.sent + [R.RdyFrame(c.newVersion, d.newSize, c.gap)])
            && (d.status != RDY ==> Refused(c, d))
  {
    hide Intact, Get32, R.ClientCxlFrame, R.RdyFrame, R.OnNtf, R.OnData, R.OnFin, R.OnCxl, Packets;
  }

  /** FIN is taken exactly in DONE and without payload: the session ends and the handler is given the
      file; in every other case the session is cancelled. */
  lemma FinOutcome(c: R.Client, m: Buffer, len: nat, io: R.Io)
    requires c.active && c.listening && Intact(m, len) && Id(m) == Some(FIN)
    ensures var d := R.Step(c, R.Arrive(m, len, io));
            && (c.status == DONE && len == 32 ==>
                  d == c.(status := FIN, active := false, handed := c.handed + [R.Delivery(c.disk, c.newVersion)]))
            && (!(c.status == DONE && len == 32) ==> Refused(c, d))
  {
    hide Intact, Get32, R.ClientCxlFrame, R.OnNtf, R.OnInfo, R.OnData, R.OnCxl;
  }

  /** The length a DATA datagram must have in all. */
  function DataLength(c: R.Client, m: Buffer): nat {
    var psn, tpn := Get32(m, 24), Get32(m, 8);
    if psn == 0 || psn + 1 < tpn then 32 + 1408 else 32 + c.newSize % 1408
  }

  /** Any DATA datagram: cancelled in the wrong status or at the wrong length; else, out of order, answered
      by a request and nothing else; else cancelled if the write fails, and stored if it does not. */
  lemma DataOutcome(c: R.Client, m: Buffer, len: nat, io: R.Io)
    requires ReceiverSafety.Sound(c) && c.active && c.listening && Intact(m, len) && Id(m) == Some(DATA)
    ensures var d, psn := R.Step(c, R.Arrive(m, len, io)), Get32(m, 24);
            var right := c.status == (if psn == 0 then RDY else DATA) && len == DataLength(c, m);
            && (!right ==> Refused(c, d))
            && (right && psn != c.psn ==> d == c.(sent := c.sent + [R.RtxFrame(c.psn)]))
            && (right && psn == c.psn && !io.writes ==> Refused(c, d))
            && (right && psn == c.psn && io.writes ==>
                  d.psn == c.psn + 1 && len >= 32 && d.disk == Some(R.Written(c.disk) + m[32..len]))
  {
    hide Intact, Get32, R.ClientCxlFrame, R.RtxFrame, R.DoneFrame, R.OnNtf, R.OnInfo, R.OnFin, R.OnCxl, Packets,
      Checksum;
    IntactLength(m, len);
    PacketsInRange(c.newSize);
  }

  /** With the last packet stored, the receiver says DONE if the file has the announced length and
      checksum, and cancels if it does not. */
  lemma LastOutcome(c: R.Client, m: Buffer, len: nat, io: R.Io)
    requires ReceiverSafety.Sound(c) && c.active && c.listening && Intact(m, len) && Id(m) == Some(DATA)
    requires R.Step(c, R.Arrive(m, len, io)).psn == c.psn + 1
    ensures var d := R.Step(c, R.Arrive(m, len, io));
            if d.psn != c.total then d.status == DATA && d.sent == c.sent && d.active && d.open
            else if |R.Written(d.disk)| == c.newSize && R.FileChecksum(d.disk) == c.newCrc
            then
              && d.status == DONE && !d.open && d.active
              && d.sent == c.sent + [R.DoneFrame(c.newVersion, c.newSize, c.newCrc)]
            else d.status == CXL && d.sent == c.sent + [R.ClientCxlFrame()] && !d.open && !d.active
  {
    hide Intact, Get32, R.ClientCxlFrame, R.RtxFrame, R.DoneFrame, R.OnNtf, R.OnInfo, R.OnFin, R.OnCxl, Packets,
      Checksum;
    IntactLength(m, len);
    PacketsInRange(c.newSize);
  }

  /** Any NTF at the port of an idle client: taken, at its own length; cancelled at another; and, damaged,
      the end of all service. Taken or not, nothing of an earlier session is left but its file. */
  lemma NtfOutcome(c: R.Client, m: Buffer, len: nat)
    requires !c.active && R.IsNtf(m)
    ensures var d := R.Step(c, R.Knock(m, len));
            && d.psn == 0 && d.total == 0 && d.newSize == 0 && !d.open && d.disk == c.disk && d.handed == c.handed
            && (Intact(m, len) && len == 36 ==>
                  && d.status == CHK && d.active && d.listening && d.newVersion == Get32(m, 32)
                  && d.sent == c.sent + [R.ChkFrame(c.curVersion)])
            && (Intact(m, len) && len != 36 ==> d.status == CXL && !d.active && d.sent == c.sent + [R.ClientCxlFrame()])
            && (!Intact(m, len) ==> d.active && !d.listening && d.sent == c.sent && d.status == c.status)
  {
    hide Intact, Get32, R.ClientCxlFrame, R.ChkFrame, R.OnInfo, R.OnData, R.OnFin, R.OnCxl;
    if Intact(m, len) {
      IntactLength(m, len);
    }
  }

  /** The receiver says CHK, RDY, DONE, RTX and CXL, each as one datagram with its own id, and nothing
      else; all but RTX become its status, and CXL ends it. */
  lemma SaysOnlyItsOwn(c: R.Client, id: MessageId)
    ensures var d := R.Say(c, id);
            if id !in {CHK, RDY, DONE, RTX, CXL} then d == c
            else
              && |d.sent| == |c.sent| + 1 && d.sent[..|c.sent|] == c.sent
              && |d.sent[|c.sent|]| >= 32 && IdOf(Get32(d.sent[|c.sent|], 16)) == Some(id)
              && d == c.(status := if id == RTX then c.status else id, active := c.active && id != CXL, sent := d.sent)
  {
    hide R.ClientFrame, Get32, IdOf;
    R.ClientFrameId(CHK, Put32(c.curVersion));
    R.ClientFrameId(RDY, Put32(c.newVersion) + Put32(c.newSize) + Put32(c.gap));
    R.ClientFrameId(DONE, Put32(c.newVersion) + Put32(c.newSize) + Put32(c.newCrc));
    R.ClientFrameId(RTX, Put32(c.psn));
    R.ClientFrameId(CXL, []);
  }

  // ---- Giving up is told ----

  lemma CxlSays(j: S.Job)
    ensures |S.CxlFrame(j)| == 32 && IdOf(Get32(S.CxlFrame(j), 16)) == Some(CXL)
  {
    hide Packed, Get32, Code, IdOf;
    PackedId(S.ServerHeader(j, CXL, 0, 0), []);
    IdOfCode(CXL);
  }

  /** Step `i` of `more` is the driver's, and it sends CXL. */
  ghost predicate DriverTells(s: S.Sender, more: seq<S.Action>, i: nat) {
    && i < |more| && more[i].Drive? && S.Run(s, more[..i]).driver == S.CancelEmit
    && S.Run(s, more[..i + 1]).sent == S.Run(s, more[..i]).sent + [S.CxlFrame(s.job)]
  }

  /** Step `i` of `more` is the driver's, and it stores CXL. */
  ghost predicate DriverCancels(s: S.Sender, more: seq<S.Action>, i: nat) {
    && i < |more| && more[i].Drive? && S.Run(s, more[..i]).driver == S.CancelStore
    && S.Run(s, more[..i + 1]).status == CXL
  }

  lemma NextRun(s: S.Sender, more: seq<S.Action>, k: nat)
    requires k < |more|
    ensures S.Run(s, more[..k + 1]) == S.Step(S.Run(s, more[..k]), more[k])
  {
    hide S.Step;
    assert more[..k + 1][..k] == more[..k];
  }

  lemma DriverGivesUp(s: S.Sender, a: S.Action)
    ensures var d := S.Step(s, a);
            && d.job == s.job
            && (s.driver == S.CancelStore ==>
                  d.driver == S.CancelStore || (a.Drive? && d.driver == S.CancelEmit && d.status == CXL))
            && (s.driver == S.CancelEmit ==>
                  || d.driver == S.CancelEmit
                  || (a.Drive? && d.driver == S.Returned(CXL) && d.sent == s.sent + [S.CxlFrame(s.job)]))
            && (s.driver == S.Returned(CXL) ==> d.driver == S.Returned(CXL))
  {
    hide SenderPackets, Intact, Get32, Checksum, S.NtfFrame, S.InfoFrame, S.FinFrame, S.CxlFrame, S.DataFrame,
      S.Readable;
  }

  lemma {:induction false} GivingUp(s: S.Sender, more: seq<S.Action>, n: nat)
    requires s.driver == S.CancelStore && n <= |more|
    ensures var u := S.Run(s, more[..n]);
            && u.job == s.job
            && (u.driver == S.CancelStore || u.driver == S.CancelEmit || u.driver == S.Returned(CXL))
            && (u.driver != S.CancelStore ==> exists i :: DriverCancels(s, more, i))
            && (u.driver == S.Returned(CXL) ==> exists i :: DriverTells(s, more, i))
  {
    hide S.Step, S.Run, S.CxlFrame;
    if n == 0 {
      RunNothingOf(s, more);
    } else {
      GivingUp(s, more, n - 1);
      NextRun(s, more, n - 1);
      var u := S.Run(s, more[..n - 1]);
      DriverGivesUp(u, more[n - 1]);
      if u.driver == S.CancelStore && S.Run(s, more[..n]).driver != S.CancelStore {
        assert DriverCancels(s, more, n - 1);
      }
      if u.driver == S.CancelEmit && S.Run(s, more[..n]).driver != S.CancelEmit {
        assert DriverTells(s, more, n - 1);
      }
    }
  }

  lemma RunNothingOf(s: S.Sender, more: seq<S.Action>)
    ensures S.Run(s, more[..0]) == s
  {
    assert more[..0] == [];
  }

  /** A wait for RDY or DONE that is over without it, and without a CXL to explain it, is given up: under
      every interleaving, if `StartFileTransfer` returns it returns CXL, and its driver has stored CXL and
      sent it to the client before. */
  lemma GivingUpIsTold(s: S.Sender, stage: S.Stage, more: seq<S.Action>)
    requires stage != S.Notify
    requires || (s.driver.Waiting? && s.driver.stage == stage && s.driver.seen == s.status)
             || (s.driver == S.Woken(stage) && s.status != CXL && s.status != S.Awaited(stage))
    ensures var d := S.Step(s, S.Drive(true));
            && d.driver == S.CancelStore
            && (S.Run(d, more).driver.Returned? ==>
                  && S.Run(d, more).driver == S.Returned(CXL)
                  && (exists i :: DriverCancels(d, more, i)) && exists i :: DriverTells(d, more, i))
  {
    hide S.Run, S.LoopStep, S.Receive, S.CheckPsn, S.StoreResult, S.CxlFrame, S.NtfFrame, S.InfoFrame, S.FinFrame;
    var d := S.Step(s, S.Drive(true));
    GivingUp(d, more, |more|);
    assert more[..|more|] == more;
  }

  /** Step `i` of `more` is the loop's, and it sends CXL, or stores it. */
  ghost predicate LoopTells(s: S.Sender, more: seq<S.Action>, i: nat) {
    && i < |more| && more[i].Loop? && S.Run(s, more[..i]).loop == S.FailEmit
    && S.Run(s, more[..i + 1]).sent == S.Run(s, more[..i]).sent + [S.CxlFrame(s.job)]
  }

  ghost predicate LoopCancels(s: S.Sender, more: seq<S.Action>, i: nat) {
    && i < |more| && more[i].Loop? && S.Run(s, more[..i]).loop == S.Failing
    && S.Run(s, more[..i + 1]).status == CXL
  }

  lemma LoopGivesUp(s: S.Sender, a: S.Action)
    requires !Handshaking(s.driver)
    ensures var d := S.Step(s, a);
            && d.job == s.job && !Handshaking(d.driver)
            && (s.loop == S.Failing ==> d.loop == S.Failing || (a.Loop? && d.loop == S.FailEmit && d.status == CXL))
            && (s.loop == S.FailEmit ==>
                  d.loop == S.FailEmit || (a.Loop? && d.loop == S.Failed && d.sent == s.sent + [S.CxlFrame(s.job)]))
            && (s.loop == S.Failed ==> d.loop == S.Failed)
  {
    hide SenderPackets, Intact, Get32, Checksum, S.NtfFrame, S.InfoFrame, S.FinFrame, S.CxlFrame, S.DataFrame,
      S.Readable;
  }

  lemma {:induction false} LoopGivingUp(s: S.Sender, more: seq<S.Action>, n: nat)
    requires s.loop == S.Failing && !Handshaking(s.driver) && n <= |more|
    ensures var u := S.Run(s, more[..n]);
            && u.job == s.job && !Handshaking(u.driver)
            && (u.loop == S.Failing || u.loop == S.FailEmit || u.loop == S.Failed)
            && (u.loop != S.Failing ==> exists i :: LoopCancels(s, more, i))
            && (u.loop == S.Failed ==> exists i :: LoopTells(s, more, i))
  {
    hide S.Step, S.Run, S.CxlFrame, Handshaking;
    if n == 0 {
      RunNothingOf(s, more);
    } else {
      LoopGivingUp(s, more, n - 1);
      NextRun(s, more, n - 1);
      var u := S.Run(s, more[..n - 1]);
      LoopGivesUp(u, more[n - 1]);
      if u.loop == S.Failing && S.Run(s, more[..n]).loop != S.Failing {
        assert LoopCancels(s, more, n - 1);
      }
      if u.loop == S.FailEmit && S.Run(s, more[..n]).loop != S.FailEmit {
        assert LoopTells(s, more, n - 1);
      }
    }
  }

  /** A file that cannot be opened or read ends the loop in failure only: under every interleaving it
      goes no other way, and once it has ended it has stored CXL and sent it. */
  lemma FailureIsTold(j: S.Job, acts: seq<S.Action>, more: seq<S.Action>)
    requires var s := S.Run(S.Start(j), acts); s.loop == S.Opening || s.loop == S.Send
    ensures var s := S.Run(S.Start(j), acts);
            var d := S.Step(s, S.Loop(false));
            var u := S.Run(d, more);
            && d == s.(loop := S.Failing)
            && (u.loop == S.Failing || u.loop == S.FailEmit || u.loop == S.Failed)
            && (u.loop == S.Failed ==> (exists i :: LoopCancels(d, more, i)) && exists i :: LoopTells(d, more, i))
  {
    hide S.Run, S.Start, S.Receive, S.CheckPsn, S.StoreResult, S.DriverStep, S.CxlFrame, S.DataFrame, S.Readable,
      Requests, Positions, Coverage, Counting, SenderPackets;
    BegunInv(j);
    LoopInvRun(Begun(j), acts);
    TraceIsRun(j, acts);
    var d := S.Step(S.Run(S.Start(j), acts), S.Loop(false));
    LoopGivingUp(d, more, |more|);
    assert more[..|more|] == more;
  }

  /** An abort of a transfer that has returned finds nothing; any other stores CXL, and is told by one
      CXL of its own. */
  lemma AbortTells(s: S.Sender)
    ensures S.Step(s, S.Abort) == if s.driver.Returned? then s else s.(status := CXL, aborts := s.aborts + 1)
    ensures s.aborts > 0 ==>
              S.Step(s, S.AbortEmit) == s.(sent := s.sent + [S.CxlFrame(s.job)], aborts := s.aborts - 1)
  {
    hide S.CxlFrame;
  }
}
