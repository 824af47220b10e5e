/** What becomes of a request for retransmission: where the loop goes next, and which gaps at the
    receiver it repairs. */
module Retransmission {
  import opened Wrappers
  import opened Words
  import opened Frame
  import opened BitwiseCrc
  import opened Segments
  import S = Sender
  import opened SenderSafety
  import R = Receiver
  import ReceiverSafety
  import opened ClientView
  import W = World
  import opened WorldSafety
  import opened EndToEnd
  import opened Completion

  // ---- Where the loop goes ----

  /** The loop consumed a request for `r` before the send, or in the tail wait, and is about to make
      it the psn. */
  predicate AboutToJump(s: S.Sender, r: u32) {
    s.loop == S.StoreRetransmit(r) || s.loop == S.TailStore(r)
  }

  /** The request that is there for the loop when, after `more`, it exchanges `rtx` with the sentinel:
      the last one stored up to then, or else the one pending in `s`. */
  function Found(s: S.Sender, more: seq<S.Action>): u32 {
    if more == [] then s.rtx
    else
      var before, a := more[..|more| - 1], more[|more| - 1];
      if StoresRequest(S.Run(s, before), a) then S.Run(s, before).dispatch.target else Found(s, before)
  }

  /** A request is stored, and the loop has not just exchanged the one before. */
  predicate StoresRequest(s: S.Sender, a: S.Action) {
    a == S.Result && s.dispatch.StoreRtx? && !s.loop.StoreRetransmit?
  }

  /** The loop has not stood at the sending of a packet before the end of `more`. */
  ghost predicate FirstStand(s: S.Sender, more: seq<S.Action>) {
    forall i :: 0 <= i < |more| ==> S.Run(s, more[..i]).loop != S.Send
  }

  /** Where the loop stands next: at `r` if the request was consumed before the send; after a tail
      wait where another request, if one is found, says, and else one packet after `r`. */
  function Next(s: S.Sender, r: u32, found: u32): int {
    if s.loop.StoreRetransmit? then r else if found != S.NO_PSN then found else r + 1
  }

  /** The stations on the way from the jump of `s` to the next packet. */
  predicate OnTheWay(s: S.Sender, u: S.Sender, r: u32, found: u32) {
    match u.loop
    case TailStore(x) => u.loop == s.loop && u.rtx == found
    case Increment => s.loop.TailStore? && u.psn == r && u.rtx == found
    case Guard => s.loop.TailStore? && u.psn == r + 1 && u.rtx == found
    case CheckCancel => s.loop.TailStore? && u.psn == r + 1 && u.rtx == found
    case CheckRetransmit => s.loop.TailStore? && u.psn == r + 1 && u.rtx == found
    case TakeRetransmit => s.loop.TailStore? && u.rtx == found != S.NO_PSN
    case StoreRetransmit(x) => u.loop == s.loop || (s.loop.TailStore? && x == found != S.NO_PSN)
    case Send => u.psn == Next(s, r, found)
    case Finished => s.loop.TailStore? && r + 1 == S.Tpn(s.job)
    case Cancelled => s.loop.TailStore?
    case _ => false
  }

  lemma OnTheWayLoop(s: S.Sender, u: Trace, r: u32, found: u32, io: bool)
    requires LoopInv(u) && u.s.job == s.job && AboutToJump(s, r)
    requires OnTheWay(s, u.s, r, found) && u.s.loop != S.Send
    ensures OnTheWay(s, S.Step(u.s, S.Loop(io)), r, found)
  {
    hide S.DriverStep, S.Receive, S.CheckPsn, S.StoreResult, SenderPackets, S.DataFrame, S.CxlFrame, S.Readable,
      Coverage, Counting, NetBack;
  }

  lemma OnTheWayOthers(s: S.Sender, u: Trace, r: u32, found: u32, a: S.Action)
    requires LoopInv(u) && u.s.job == s.job && AboutToJump(s, r)
    requires OnTheWay(s, u.s, r, found) && u.s.loop != S.Send && !a.Loop?
    ensures OnTheWay(s, S.Step(u.s, a), r, if StoresRequest(u.s, a) then u.s.dispatch.target else found)
  {
    hide S.Step, SenderPackets, Coverage, Counting, NetBack;
    OthersFrame(u.s, a);
  }

  lemma OnTheWayStart(s: S.Sender, r: u32)
    requires AboutToJump(s, r)
    ensures OnTheWay(s, s, r, s.rtx)
  {
  }

  lemma {:induction false} OnTheWayRun(t: Trace, more: seq<S.Action>, r: u32)
    requires LoopInv(t) && AboutToJump(t.s, r) && FirstStand(t.s, more)
    ensures OnTheWay(t.s, S.Run(t.s, more), r, Found(t.s, more))
  {
    hide LoopInv, OnTheWay, AboutToJump, TraceStep, S.Step, StoresRequest;
    if more == [] {
      OnTheWayStart(t.s, r);
    } else {
      var before, a := more[..|more| - 1], more[|more| - 1];
      assert forall i :: 0 <= i < |before| ==> before[..i] == more[..i];
      OnTheWayRun(t, before, r);
      LoopInvRun(t, before);
      TraceFollows(t, before);
      var u := TraceRun(t, before);
      assert more[..|before|] == before;
      if a.Loop? {
        OnTheWayLoop(t.s, u, r, Found(t.s, before), a.io);
        NotStoring(u.s, a);
      } else {
        OnTheWayOthers(t.s, u, r, Found(t.s, before), a);
      }
    }
  }

  lemma NotStoring(s: S.Sender, a: S.Action)
    requires a.Loop?
    ensures !StoresRequest(s, a)
  {
  }

  /** In every run, a request about to become the psn decides the next packet the loop stands at. That
      packet is the one asked for if the request was consumed before the send. Consumed in the tail
      wait, it is the one after it (or the loop ends, if there is none), unless another request is
      pending or gets stored before the loop looks for one: then it is what the last such one says. */
  lemma NextStand(j: S.Job, acts: seq<S.Action>, more: seq<S.Action>, r: u32)
    requires var s := S.Run(S.Start(j), acts); AboutToJump(s, r) && FirstStand(s, more)
    ensures var s := S.Run(S.Start(j), acts);
            var u := S.Run(s, more);
            && (u.loop == S.Send ==> u.psn == Next(s, r, Found(s, more)))
            && (u.loop == S.Finished ==> s.loop == S.TailStore(r) && r + 1 == S.Tpn(j))
  {
    hide TraceRun, TraceStep, LoopInv, FirstStand, Found, Next, S.Start, S.Run, SenderPackets;
    BegunInv(j);
    LoopInvRun(Begun(j), acts);
    TraceIsRun(j, acts);
    OnTheWayRun(TraceRun(Begun(j), acts), more, r);
  }

  // ---- The circle at the end ----

  /** Every request stored in `more` is for `k`, and comes while the loop waits in its tail. */
  ghost predicate AskedInTailOnly(t: Trace, more: seq<S.Action>, k: u32) {
    forall i :: 0 <= i < |more| ==> InTailOnly(TraceRun(t, more[..i]).s, more[i], k)
  }

  predicate InTailOnly(s: S.Sender, a: S.Action, k: u32) {
    a == S.Result && s.dispatch.StoreRtx? ==> s.dispatch.target == k && (s.loop == S.TailCheck || s.loop == S.TailTake)
  }

  /** The loop goes round the last packet, `p`, and only the last but one, `k`, is ever asked for. */
  predicate Circling(s: S.Sender, k: u32, p: u32) {
    && (s.rtx != S.NO_PSN ==> s.rtx == k && (s.loop == S.TailCheck || s.loop == S.TailTake))
    && match s.loop
       case Increment => s.psn == k || s.psn == p
       case Guard => s.psn == p || s.psn == p + 1
       case TailStore(r) => s.psn == p && r == k
       case StoreRetransmit(_) => false
       case TakeRetransmit => false
       case NotStarted => false
       case Opening => false
       case Reset => false
       case CheckCancel => s.psn == p
       case CheckRetransmit => s.psn == p
       case Send => s.psn == p
       case TailCheck => s.psn == p
       case TailTake => s.psn == p && s.rtx == k
       case _ => true
  }

  ghost predicate OnlyLast(t: Trace, u: Trace, p: u32) {
    |t.data| <= |u.data| && u.data[..|t.data|] == t.data && forall i :: |t.data| <= i < |u.data| ==> u.data[i] == p
  }

  lemma CirclingLoop(u: Trace, io: bool, k: u32, p: u32)
    requires LoopInv(u) && Circling(u.s, k, p) && k + 1 == p && p + 1 == S.Tpn(u.s.job)
    ensures var v := TraceStep(u, S.Loop(io));
            Circling(v.s, k, p) && (v.data == u.data || v.data == u.data + [p])
  {
    hide S.DriverStep, S.Receive, S.CheckPsn, S.StoreResult, SenderPackets, S.DataFrame, S.CxlFrame, S.Readable,
      Coverage, Counting, NetBack, Jumped;
    assert u.data + [] == u.data;
  }

  lemma CirclingOthers(u: Trace, a: S.Action, k: u32, p: u32)
    requires LoopInv(u) && Circling(u.s, k, p) && !a.Loop? && InTailOnly(u.s, a, k)
    ensures Circling(TraceStep(u, a).s, k, p) && TraceStep(u, a).data == u.data
  {
    hide S.Step, SenderPackets, TraceStep, Coverage, Counting, NetBack;
    OthersFrame(u.s, a);
    OthersTrace(u, a);
  }

  /** However the steps of all threads interleave: with the loop at the last packet and nothing
      pending, the packet before it is never sent again unless a request is stored outside the tail
      wait. */
  lemma {:induction false} OnlyTheLastAgain(t: Trace, more: seq<S.Action>, k: u32, p: u32)
    requires LoopInv(t) && t.s.loop == S.Send && t.s.psn == p && t.s.rtx == S.NO_PSN
    requires k + 1 == p && p + 1 == S.Tpn(t.s.job) && AskedInTailOnly(t, more, k)
    ensures var u := TraceRun(t, more);
            Circling(u.s, k, p) && OnlyLast(t, u, p) && u.s.job == t.s.job
  {
    hide LoopInv, Circling, TraceStep, S.Step, InTailOnly, SenderPackets;
    TraceFollows(t, more);
    if more == [] {
      CirclingStart(t, k, p);
    } else {
      var before, a := more[..|more| - 1], more[|more| - 1];
      assert forall i :: 0 <= i < |before| ==> before[..i] == more[..i] && before[i] == more[i];
      OnlyTheLastAgain(t, before, k, p);
      LoopInvRun(t, before);
      var u := TraceRun(t, before);
      if a.Loop? { CirclingLoop(u, a.io, k, p); } else { CirclingOthers(u, a, k, p); }
    }
  }

  lemma CirclingStart(t: Trace, k: u32, p: u32)
    requires LoopInv(t) && t.s.loop == S.Send && t.s.psn == p && t.s.rtx == S.NO_PSN
    ensures Circling(t.s, k, p)
  {
    hide LoopInv;
  }

  // ---- A gap, noticed ----

  /** The receiver expects `k`, the sender is about to send a later packet `p`. */
  ghost predicate Gap(w: W.World, k: u32, p: u32) {
    var s, c := w.t.s, w.cli;
    && s.status == DATA && s.dispatch == S.Idle && s.loop == S.Send && s.psn == p && s.rtx == S.NO_PSN
    && (s.driver == S.Enter(S.Transfer) || s.driver == S.Waiting(S.Transfer, DATA))
    && 1 <= k < p < S.Tpn(s.job)
    && c.active && c.listening && c.status == DATA && c.psn == k
  }

  lemma GapNoticed(c: R.Client, j: S.Job, p: u32)
    requires View(c, j) && Deliverable(j) && p < S.Tpn(j) && S.Readable(j, p)
    requires c.active && c.listening && c.status == DATA && 1 <= c.psn < p
    ensures |S.DataFrame(j, p)| <= MESSAGE_SIZE
    ensures R.Step(c, R.Arrive(Arrival(S.DataFrame(j, p)), |S.DataFrame(j, p)|, R.Io(true, true)))
            == c.(sent := c.sent + [R.RtxFrame(c.psn)])
  {
    hide Intact, Checksum, SenderPackets, Packets, Get32, Payload, Chunk, Length, Covered, S.Readable, S.DataFrame,
      R.DoneFrame, R.ClientCxlFrame, R.RtxFrame, Arrival, ReceiverSafety.Verified, R.OnInfo, R.OnFin, R.OnCxl,
      R.Complete, OnDisk;
    DataFrameSize(j, p);
    var f := S.DataFrame(j, p);
    DataReads(j, p, Arrival(f), |f|);
    IntactLength(Arrival(f), |f|);
    ChunkInBounds(S.Size(j), p);
    LastLength(S.Size(j), p);
  }

  lemma RtxTaken(s: S.Sender, k: u32)
    requires s.status == DATA && s.dispatch == S.Idle
    ensures |R.RtxFrame(k)| <= MESSAGE_SIZE
    ensures S.Step(s, S.Take(Arrival(R.RtxFrame(k)), |R.RtxFrame(k)|)) == s.(dispatch := S.PsnForRtx(4, k))
  {
    hide R.ClientFrame, Get32, Intact, Put32, Payload, Arrival, S.DriverStep, S.LoopStep, S.CheckPsn, S.StoreResult;
    var f := R.RtxFrame(k);
    FrameSizes(RTX, Put32(k));
    ClientFrameReads(RTX, Put32(k), Arrival(f), |f|);
    PayloadWord(Arrival(f), |f|, k);
  }

  /** A request of the receiver's reaches the sender and is stored. */
  lemma StoreRequest(w: W.World, acts0: seq<W.Act>, v0: W.World, k: u32) returns (acts: seq<W.Act>, v: W.World)
    requires v0 == W.Run(w, acts0) && WorldInv(v0) && R.RtxFrame(k) in v0.cli.sent
    requires v0.t.s.status == DATA && v0.t.s.dispatch == S.Idle && k <= v0.t.s.psn
    ensures |R.RtxFrame(k)| <= MESSAGE_SIZE
    ensures acts == acts0 + [Upload(R.RtxFrame(k)), W.Serve(S.Check), W.Serve(S.Result)]
    ensures v == W.Run(w, acts) && WorldInv(v) && v.cli == v0.cli && v.t.data == v0.t.data
    ensures v.t.s == v0.t.s.(rtx := k)
  {
    hide WorldInv, W.Step, W.Run, SenderPackets, S.DriverStep, S.Receive, S.LoopStep, R.RtxFrame, Arrival;
    RtxTaken(v0.t.s, k);
    acts, v := ToDispatcher(w, acts0, v0, R.RtxFrame(k));
    acts, v := Serve(w, acts, v, S.Check);
    acts, v := Serve(w, acts, v, S.Result);
  }

  /** Packet `p` is sent and delivered, and the request it provokes is delivered and stored. */
  function Asking(j: S.Job, k: u32, p: u32): seq<W.Act>
    requires S.Readable(j, p) && |S.DataFrame(j, p)| <= MESSAGE_SIZE && |R.RtxFrame(k)| <= MESSAGE_SIZE
  {
    [W.Serve(S.Loop(true)), Download(S.DataFrame(j, p))]
    + [Upload(R.RtxFrame(k)), W.Serve(S.Check), W.Serve(S.Result)]
  }

  /** Delivering the out-of-order packet changes nothing at the receiver but that it asks for the one
      it expects. */
  lemma Notice(w: W.World, acts0: seq<W.Act>, v0: W.World, k: u32, p: u32) returns (acts: seq<W.Act>, v: W.World)
    requires v0 == W.Run(w, acts0) && WorldInv(v0) && Deliverable(v0.t.s.job) && Gap(v0, k, p)
    ensures S.Readable(v0.t.s.job, p) && |S.DataFrame(v0.t.s.job, p)| <= MESSAGE_SIZE
    ensures acts == acts0 + [W.Serve(S.Loop(true)), Download(S.DataFrame(v0.t.s.job, p))]
    ensures v == W.Run(w, acts) && WorldInv(v) && v.t.data == v0.t.data + [p]
    ensures v.cli == v0.cli.(sent := v0.cli.sent + [R.RtxFrame(k)])
    ensures v.t.s == v0.t.s.(sent := v0.t.s.sent + [S.DataFrame(v0.t.s.job, p)],
                             loop := if p + 1 == S.Tpn(v0.t.s.job) then S.TailCheck else S.Increment)
  {
    hide WorldInv, W.Run, R.Step, SenderPackets, Deliverable, S.Readable, S.DataFrame, Arrival, R.RtxFrame;
    var j := v0.t.s.job;
    acts, v := SendOne(w, acts0, v0, p);
    DataFrameSize(j, p);
    WorldView(v);
    GapNoticed(v.cli, j, p);
    acts, v := ToReceiver(w, acts, v, S.DataFrame(j, p));
  }

  lemma Ask(w: W.World, acts0: seq<W.Act>, v0: W.World, k: u32, p: u32) returns (acts: seq<W.Act>, v: W.World)
    requires v0 == W.Run(w, acts0) && WorldInv(v0) && Deliverable(v0.t.s.job) && Gap(v0, k, p)
    ensures S.Readable(v0.t.s.job, p) && |S.DataFrame(v0.t.s.job, p)| <= MESSAGE_SIZE && |R.RtxFrame(k)| <= MESSAGE_SIZE
    ensures acts == acts0 + Asking(v0.t.s.job, k, p)
    ensures v == W.Run(w, acts) && WorldInv(v) && v.t.data == v0.t.data + [p]
    ensures v.cli == v0.cli.(sent := v0.cli.sent + [R.RtxFrame(k)])
    ensures v.t.s == v0.t.s.(sent := v0.t.s.sent + [S.DataFrame(v0.t.s.job, p)], rtx := k,
                             loop := if p + 1 == S.Tpn(v0.t.s.job) then S.TailCheck else S.Increment)
  {
    hide WorldInv, W.Run, SenderPackets, Deliverable, S.Readable, S.DataFrame, R.RtxFrame, Upload, Download;
    acts, v := Notice(w, acts0, v0, k, p);
    acts, v := StoreRequest(w, acts, v, k);
  }

  // ---- Short of the last packet: back to the gap ----

  /** The loop goes round, consumes the request before its next send and stands at packet `k`. */
  lemma GoBack(w: W.World, acts0: seq<W.Act>, v0: W.World, k: u32, p: u32) returns (acts: seq<W.Act>, v: W.World)
    requires v0 == W.Run(w, acts0) && WorldInv(v0)
    requires v0.t.s.rtx == k && v0.t.s.psn == p && k <= p && p + 1 < S.Tpn(v0.t.s.job) < S.NO_PSN
    requires v0.t.s.loop == S.Increment && v0.t.s.status == DATA
    ensures acts0 <= acts && v == W.Run(w, acts) && WorldInv(v) && v.cli == v0.cli && v.t.data == v0.t.data
    ensures v.t.s == v0.t.s.(rtx := S.NO_PSN, loop := S.Send, psn := k)
  {
    hide WorldInv, W.Step, W.Run, SenderPackets, S.DriverStep, S.Receive, S.CheckPsn, S.StoreResult, S.DataFrame,
      S.Readable, S.CxlFrame;
    acts, v := Serve(w, acts0, v0, S.Loop(true));
    acts, v := Serve(w, acts, v, S.Loop(true));
    acts, v := Serve(w, acts, v, S.Loop(true));
    acts, v := Serve(w, acts, v, S.Loop(true));
    acts, v := Serve(w, acts, v, S.Loop(true));
    acts, v := Serve(w, acts, v, S.Loop(true));
  }

  /** Gap repair: delivering the out-of-order packet changes nothing at the receiver but that it
      asks for the one it expects; the sender takes the request and stands at that packet next,
      having sent no other DATA in between; and from there the transfer is completed. */
  lemma GapRepair(w: W.World, k: u32, p: u32) returns (repair: seq<W.Act>, rest: seq<W.Act>)
    requires WorldInv(w) && Deliverable(w.t.s.job) && Gap(w, k, p) && p + 1 < S.Tpn(w.t.s.job)
    ensures S.Readable(w.t.s.job, p) && |S.DataFrame(w.t.s.job, p)| <= MESSAGE_SIZE && |R.RtxFrame(k)| <= MESSAGE_SIZE
    ensures var noticed := W.Run(w, [W.Serve(S.Loop(true)), Download(S.DataFrame(w.t.s.job, p))]);
            noticed.cli == w.cli.(sent := w.cli.sent + [R.RtxFrame(k)]) && noticed.t.data == w.t.data + [p]
    ensures Asking(w.t.s.job, k, p) <= repair <= rest
    ensures var back := W.Run(w, repair);
            && Aligned(back, k) && back.t.data == w.t.data + [p]
            && back.cli == w.cli.(sent := w.cli.sent + [R.RtxFrame(k)])
    ensures Complete(W.Run(w, rest))
  {
    hide WorldInv, W.Run, SenderPackets, Deliverable, S.Readable, S.DataFrame, Complete, R.RtxFrame, Upload, Download;
    RunNothing(w);
    var acts, v := Notice(w, [], w, k, p);
    assert acts == [W.Serve(S.Loop(true)), Download(S.DataFrame(w.t.s.job, p))];
    acts, v := RepairFrom(w, [], w, k, p);
    repair := acts;
    acts, v := CompleteFrom(w, acts, v, k);
    rest := acts;
  }

  lemma RepairFrom(w: W.World, acts0: seq<W.Act>, v0: W.World, k: u32, p: u32) returns (acts: seq<W.Act>, v: W.World)
    requires v0 == W.Run(w, acts0) && WorldInv(v0) && Deliverable(v0.t.s.job) && Gap(v0, k, p)
        && p + 1 < S.Tpn(v0.t.s.job)
    ensures S.Readable(v0.t.s.job, p) && |S.DataFrame(v0.t.s.job, p)| <= MESSAGE_SIZE && |R.RtxFrame(k)| <= MESSAGE_SIZE
    ensures acts0 + Asking(v0.t.s.job, k, p) <= acts && v == W.Run(w, acts) && WorldInv(v) && v.t.s.job == v0.t.s.job
    ensures Aligned(v, k) && v.t.data == v0.t.data + [p]
    ensures v.cli == v0.cli.(sent := v0.cli.sent + [R.RtxFrame(k)])
  {
    hide WorldInv, W.Run, SenderPackets, Deliverable, S.Readable, S.DataFrame, R.RtxFrame, Asking;
    acts, v := Ask(w, acts0, v0, k, p);
    TpnSmall(v0);
    acts, v := GoBack(w, acts, v, k, p);
  }

  // ---- At the last packet: one too late ----

  /** The tail wait and on to the next send: seven steps of the loop. */
  function Tail(): seq<W.Act> {
    var a := W.Serve(S.Loop(true));
    [a, a, a, a, a, a, a]
  }

  /** A turn of the tail wait with a request for `k` pending: the loop stands at `k + 1`. */
  lemma TailTurn(w: W.World, acts0: seq<W.Act>, v0: W.World, k: u32) returns (acts: seq<W.Act>, v: W.World)
    requires v0 == W.Run(w, acts0) && WorldInv(v0)
    requires v0.t.s.rtx == k && k + 1 < S.Tpn(v0.t.s.job) < S.NO_PSN
    requires v0.t.s.loop == S.TailCheck && v0.t.s.status == DATA
    ensures acts == acts0 + Tail() && v == W.Run(w, acts) && WorldInv(v) && v.cli == v0.cli && v.t.data == v0.t.data
    ensures v.t.s == v0.t.s.(rtx := S.NO_PSN, loop := S.Send, psn := k + 1)
  {
    hide WorldInv, W.Step, W.Run, SenderPackets, S.DriverStep, S.Receive, S.CheckPsn, S.StoreResult, S.DataFrame,
      S.Readable, S.CxlFrame;
    acts, v := Serve(w, acts0, v0, S.Loop(true));
    acts, v := Serve(w, acts, v, S.Loop(true));
    acts, v := Serve(w, acts, v, S.Loop(true));
    acts, v := Serve(w, acts, v, S.Loop(true));
    acts, v := Serve(w, acts, v, S.Loop(true));
    acts, v := Serve(w, acts, v, S.Loop(true));
    acts, v := Serve(w, acts, v, S.Loop(true));
  }

  /** One round on a prompt network: the last packet, the request it provokes, the tail wait. */
  function Round(j: S.Job, k: u32, p: u32): seq<W.Act>
    requires S.Readable(j, p) && |S.DataFrame(j, p)| <= MESSAGE_SIZE && |R.RtxFrame(k)| <= MESSAGE_SIZE
  {
    Asking(j, k, p) + Tail()
  }

  /** The receiver expects `k`, the sender is about to send the last packet, `p`. */
  ghost predicate TailGap(w: W.World, k: u32, p: u32) {
    Gap(w, k, p) && p + 1 == S.Tpn(w.t.s.job)
  }

  lemma TailRound(w: W.World, acts0: seq<W.Act>, v0: W.World, k: u32, p: u32) returns (acts: seq<W.Act>, v: W.World)
    requires v0 == W.Run(w, acts0) && WorldInv(v0) && Deliverable(v0.t.s.job) && TailGap(v0, k, p)
    ensures S.Readable(v0.t.s.job, p) && |S.DataFrame(v0.t.s.job, p)| <= MESSAGE_SIZE && |R.RtxFrame(k)| <= MESSAGE_SIZE
    ensures acts == acts0 + Round(v0.t.s.job, k, p) && v == W.Run(w, acts) && WorldInv(v)
    ensures v.t.s == v0.t.s.(sent := v0.t.s.sent + [S.DataFrame(v0.t.s.job, p)], psn := k + 1)
    ensures v.t.data == v0.t.data + [p] && v.cli == v0.cli.(sent := v0.cli.sent + [R.RtxFrame(k)])
  {
    hide WorldInv, W.Run, SenderPackets, Deliverable, S.Readable, S.DataFrame, R.RtxFrame, Asking;
    acts, v := Ask(w, acts0, v0, k, p);
    TpnSmall(v0);
    acts, v := TailTurn(w, acts, v, k);
    assert acts == acts0 + (Asking(v0.t.s.job, k, p) + Tail());
  }

  /** A gap noticed by the last packet: one prompt round leaves the receiver as it was and the loop at
      `k + 1`. If that is short of the last packet, its delivery is answered by a second request, the
      gap is repaired, two DATA datagrams later, and the transfer is completed. */
  lemma TailGapRepair(w: W.World, k: u32, p: u32) returns (repair: seq<W.Act>, rest: seq<W.Act>)
    requires WorldInv(w) && Deliverable(w.t.s.job) && TailGap(w, k, p) && k + 1 < p
    ensures S.Readable(w.t.s.job, p) && |S.DataFrame(w.t.s.job, p)| <= MESSAGE_SIZE && |R.RtxFrame(k)| <= MESSAGE_SIZE
    ensures Round(w.t.s.job, k, p) <= repair <= rest
    ensures var back := W.Run(w, repair);
            && Aligned(back, k) && back.t.data == w.t.data + [p, k + 1]
            && back.cli == w.cli.(sent := w.cli.sent + [R.RtxFrame(k), R.RtxFrame(k)])
    ensures Complete(W.Run(w, rest))
  {
    hide WorldInv, W.Run, SenderPackets, Deliverable, S.Readable, S.DataFrame, Complete, R.RtxFrame, Asking, Round;
    RunNothing(w);
    var acts, v := TailRound(w, [], w, k, p);
    acts, v := RepairFrom(w, acts, v, k, k + 1);
    repair := acts;
    assert w.t.data + [p] + [k + 1] == w.t.data + [p, k + 1];
    assert w.cli.sent + [R.RtxFrame(k)] + [R.RtxFrame(k)] == w.cli.sent + [R.RtxFrame(k), R.RtxFrame(k)];
    acts, v := CompleteFrom(w, acts, v, k);
    rest := acts;
  }

  function Rounds(j: S.Job, k: u32, p: u32, n: nat): seq<W.Act>
    requires S.Readable(j, p) && |S.DataFrame(j, p)| <= MESSAGE_SIZE && |R.RtxFrame(k)| <= MESSAGE_SIZE
  {
    if n == 0 then [] else Rounds(j, k, p, n - 1) + Round(j, k, p)
  }

  function Copies<T>(x: T, n: nat): (s: seq<T>)
    ensures |s| == n
  {
    seq(n, _ => x)
  }

  lemma OneMore<T>(x: T, n: nat)
    ensures Copies(x, n + 1) == Copies(x, n) + [x]
  {
  }

  /** If the packet lost is the last but one, the prompt round leads back to where it began: however
      often it is repeated, only the last packet is sent again, the receiver asks again, and its file
      does not grow. */
  lemma {:induction false} LastButOneNeverComes(w: W.World, k: u32, p: u32, n: nat)
    requires WorldInv(w) && Deliverable(w.t.s.job) && TailGap(w, k, p) && k + 1 == p
    ensures S.Readable(w.t.s.job, p) && |S.DataFrame(w.t.s.job, p)| <= MESSAGE_SIZE && |R.RtxFrame(k)| <= MESSAGE_SIZE
    ensures var v := W.Run(w, Rounds(w.t.s.job, k, p, n));
            && WorldInv(v) && v.t.s.job == w.t.s.job && TailGap(v, k, p)
            && v.t.data == w.t.data + Copies(p, n)
            && v.cli == w.cli.(sent := w.cli.sent + Copies(R.RtxFrame(k), n))
  {
    hide WorldInv, W.Run, SenderPackets, Deliverable, S.Readable, S.DataFrame, R.RtxFrame, Round;
    RunNothing(w);
    if n == 0 {
      var _, _ := TailRound(w, [], w, k, p);
      assert w.t.data + Copies(p, 0) == w.t.data && w.cli.sent + Copies(R.RtxFrame(k), 0) == w.cli.sent;
    } else {
      LastButOneNeverComes(w, k, p, n - 1);
      var before := Rounds(w.t.s.job, k, p, n - 1);
      var acts, v := TailRound(w, before, W.Run(w, before), k, p);
      OneMore(p, n - 1);
      OneMore(R.RtxFrame(k), n - 1);
      assert w.t.data + Copies(p, n - 1) + [p] == w.t.data + (Copies(p, n - 1) + [p]);
    }
  }

  /** As `Asking` at the last packet, and the same request once more between the exchange in the tail
      wait and the next look for a request. */
  function AskingTwice(j: S.Job, k: u32, p: u32): seq<W.Act>
    requires S.Readable(j, p) && |S.DataFrame(j, p)| <= MESSAGE_SIZE && |R.RtxFrame(k)| <= MESSAGE_SIZE
  {
    Asking(j, k, p) + [W.Serve(S.Loop(true)), W.Serve(S.Loop(true))]
    + [Upload(R.RtxFrame(k)), W.Serve(S.Check), W.Serve(S.Result)]
  }

  /** What breaks the circle: the request delivered twice, the second time after the loop has taken
      the first and before it looks again. Then the loop stands at the packet asked for, and the
      transfer is completed. */
  lemma SecondRequestRepairs(w: W.World, k: u32, p: u32) returns (repair: seq<W.Act>, rest: seq<W.Act>)
    requires WorldInv(w) && Deliverable(w.t.s.job) && TailGap(w, k, p)
    ensures S.Readable(w.t.s.job, p) && |S.DataFrame(w.t.s.job, p)| <= MESSAGE_SIZE && |R.RtxFrame(k)| <= MESSAGE_SIZE
    ensures AskingTwice(w.t.s.job, k, p) <= repair <= rest
    ensures var back := W.Run(w, repair);
            && Aligned(back, k) && back.t.data == w.t.data + [p]
            && back.cli == w.cli.(sent := w.cli.sent + [R.RtxFrame(k)])
    ensures Complete(W.Run(w, rest))
  {
    hide WorldInv, W.Run, SenderPackets, Deliverable, S.Readable, S.DataFrame, Complete, R.RtxFrame, Asking, Upload;
    RunNothing(w);
    var acts, v := Ask(w, [], w, k, p);
    TpnSmall(w);
    acts, v := Exchanged(w, acts, v, k);
    acts, v := StoreRequest(w, acts, v, k);
    acts, v := SecondTurn(w, acts, v, k);
    repair := acts;
    acts, v := CompleteFrom(w, acts, v, k);
    rest := acts;
  }

  lemma Exchanged(w: W.World, acts0: seq<W.Act>, v0: W.World, k: u32) returns (acts: seq<W.Act>, v: W.World)
    requires v0 == W.Run(w, acts0) && WorldInv(v0) && v0.t.s.rtx == k < S.NO_PSN && v0.t.s.loop == S.TailCheck
    ensures acts == acts0 + [W.Serve(S.Loop(true)), W.Serve(S.Loop(true))]
    ensures v == W.Run(w, acts) && WorldInv(v) && v.cli == v0.cli && v.t.data == v0.t.data
    ensures v.t.s == v0.t.s.(rtx := S.NO_PSN, loop := S.TailStore(k))
  {
    hide WorldInv, W.Step, W.Run, SenderPackets, S.DataFrame, S.Readable, S.CxlFrame;
    acts, v := Serve(w, acts0, v0, S.Loop(true));
    acts, v := Serve(w, acts, v, S.Loop(true));
  }

  lemma SecondTurn(w: W.World, acts0: seq<W.Act>, v0: W.World, k: u32) returns (acts: seq<W.Act>, v: W.World)
    requires v0 == W.Run(w, acts0) && WorldInv(v0)
    requires v0.t.s.rtx == k && k + 1 < S.Tpn(v0.t.s.job) < S.NO_PSN
    requires v0.t.s.loop == S.TailStore(k) && v0.t.s.status == DATA
    ensures acts0 <= acts && v == W.Run(w, acts) && WorldInv(v) && v.cli == v0.cli && v.t.data == v0.t.data
    ensures v.t.s == v0.t.s.(rtx := S.NO_PSN, loop := S.Send, psn := k)
  {
    hide WorldInv, W.Step, W.Run, SenderPackets, S.DriverStep, S.Receive, S.CheckPsn, S.StoreResult, S.DataFrame,
      S.Readable, S.CxlFrame;
    acts, v := Serve(w, acts0, v0, S.Loop(true));
    acts, v := Serve(w, acts, v, S.Loop(true));
    acts, v := Serve(w, acts, v, S.Loop(true));
    acts, v := Serve(w, acts, v, S.Loop(true));
    acts, v := Serve(w, acts, v, S.Loop(true));
    acts, v := Serve(w, acts, v, S.Loop(true));
    acts, v := Serve(w, acts, v, S.Loop(true));
  }

  // ---- Such gaps are met ----

  /** From the sending of packet `q`, every packet up to `p` is sent and lost. */
  lemma {:induction false} Lose(w: W.World, acts0: seq<W.Act>, v0: W.World, q: u32, p: u32)
    returns (acts: seq<W.Act>, v: W.World)
    requires v0 == W.Run(w, acts0) && WorldInv(v0) && v0.t.s.loop == S.Send && v0.t.s.psn == q <= p < S.Tpn(v0.t.s.job)
    requires v0.t.s.status == DATA && v0.t.s.rtx == S.NO_PSN
    ensures v == W.Run(w, acts) && WorldInv(v) && v.cli == v0.cli
    ensures v.t.s == v0.t.s.(psn := p, sent := v.t.s.sent)
    decreases p - q
  {
    hide WorldInv, W.Run, SenderPackets, S.Readable, S.DataFrame;
    acts, v := acts0, v0;
    if q < p {
      acts, v := SendOne(w, acts0, v0, q);
      acts, v := RoundTheLoop(w, acts, v, q);
      acts, v := Lose(w, acts, v, q + 1, p);
    }
  }

  /** For every deliverable job and all `1 <= k < p < tpn` some run from the start, with packets
      `k` to `p - 1` lost, comes to such a gap. */
  lemma GapsHappen(j: S.Job, curVersion: u32, leftover: Option<seq<Byte>>, k: u32, p: u32) returns (acts: seq<W.Act>)
    requires Deliverable(j) && 1 <= k < p < S.Tpn(j)
    ensures var w := After(j, curVersion, leftover, acts); WorldInv(w) && w.t.s.job == j && Gap(w, k, p)
  {
    hide WorldInv, W.Run, SenderPackets, Deliverable, After;
    var w := W.Initial(j, curVersion, leftover);
    var v;
    acts, v := StartSending(j, curVersion, leftover);
    assert v == W.Run(w, acts) by { AfterRuns(j, curVersion, leftover, acts); }
    acts, v := ToPacket(w, acts, v, 0, k);
    acts, v := Lose(w, acts, v, k, p);
    AfterRuns(j, curVersion, leftover, acts);
  }
}
