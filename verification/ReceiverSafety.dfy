/** What the receiver guarantees against any stream of datagrams whatever: intact or not, honest or
    not, in any order, with any timeouts and file errors. */
module ReceiverSafety {
  import opened Wrappers
  import opened Words
  import opened Frame
  import opened BitwiseCrc
  import opened Segments
  import opened Receiver

  // ---- The state invariant ----

  /** The file on disk is complete and carries the size and checksum that INFO announced. */
  ghost predicate Verified(c: Client) {
    && c.newSize != 0 && !c.open && c.psn == c.total
    && c.disk.Some? && |c.disk.value| == c.newSize && Checksum(c.disk.value) == c.newCrc
  }

  predicate Underway(c: Client) {
    c.status == CHK || c.status == RDY || c.status == DATA || c.status == DONE
  }

  predicate Delivered(c: Client) {
    c.status == FIN && c.newSize != 0
  }

  ghost predicate Sound(c: Client) {
    && (Underway(c) <==> c.active && c.listening)
    && (Underway(c) || c.status == CXL || c.status == FIN)
    && (c.newSize != 0 ==> c.total == Packets(c.newSize))
    && (c.newSize == 0 ==> c.psn == 0 && !c.open)
    && (c.status == CHK ==> c.newSize == 0)
    && (c.status == RDY ==> c.newSize != 0 && c.open && c.psn == 0 && c.disk == Some([]))
    && (c.status == DATA ==> c.newSize != 0 && c.open && 1 <= c.psn < c.total && c.disk.Some?)
    && (c.status == DONE || Delivered(c) ==> Verified(c))
  }

  lemma SoundSay(c: Client)
    requires Sound(c)
    ensures Sound(Cancel(c)) && Sound(SayRtx(c))
    ensures Sound(OnCxl(c))
  {
    hide Checksum, Packets, ClientCxlFrame, RtxFrame;
  }

  lemma SoundData(c: Client, m: Buffer, len: nat, io: Io)
    requires Sound(c) && Underway(c) && HEADER_SIZE <= len <= MESSAGE_SIZE
    ensures Sound(OnData(c, m, len, io))
  {
    hide Checksum, Packets, ClientCxlFrame, RtxFrame, DoneFrame, Get32, Payload, ExpectedLength;
    SoundSay(c);
    PacketsInRange(c.newSize);
  }

  lemma SoundHandle(c: Client, m: Buffer, len: nat, io: Io)
    requires Sound(c) && (Underway(c) <==> !IsNtf(m)) && (IsNtf(m) ==> c.newSize == 0 && c.active)
    ensures Sound(Handle(c, m, len, io))
  {
    hide Intact, Checksum, Packets, ClientCxlFrame, ChkFrame, RdyFrame, Get32, OnData;
    if Intact(m, len) {
      IntactLength(m, len);
      SoundSay(c);
      PacketsInRange(Get32(m, 36));
      if IdOf(Get32(m, 16)) == Some(DATA) {
        SoundData(c, m, len, io);
      }
    }
  }

  lemma SoundStep(c: Client, e: Event)
    requires Sound(c)
    ensures Sound(Step(c, e))
  {
    hide Handle, Checksum, Get32, ClientCxlFrame;
    SoundSay(c);
    match e
    case Knock(m, len) =>
      if !c.active && IsNtf(m) {
        SoundHandle(Reset(c.(active := true)), m, len, Io(true, true));
      }
    case Arrive(m, len, io) =>
      if Underway(c) && !IsNtf(m) {
        SoundHandle(c, m, len, io);
      } else if Underway(c) && !JoinsItself(m, len) {
        StrayNtf(c, m, len, io);
      }
    case Silence =>
  }

  lemma {:induction false} SoundRun(c: Client, es: seq<Event>)
    requires Sound(c)
    ensures Sound(Run(c, es))
  {
    hide Step, Sound;
    if es != [] {
      SoundRun(c, es[..|es| - 1]);
      SoundStep(Run(c, es[..|es| - 1]), es[|es| - 1]);
    }
  }

  lemma FreshSound(version: u32, leftover: Option<seq<Byte>>)
    ensures Sound(Fresh(version, leftover))
  {
  }

  // ---- What has been accepted since the session began ----

  datatype Item =
    | Notified(version: u32)
    | Informed(version: u32, size: u32, crc: u32)
    | Stored(psn: u32, payload: seq<Byte>)
    | Finished

  function StartsSession(c: Client, e: Event): bool {
    e.Knock? && !c.active && IsNtf(e.m)
  }

  /** The item that `e` contributes when it is accepted, read off the datagram itself. */
  function Accepted(c: Client, e: Event): Option<Item> {
    var d := Step(c, e);
    match e
    case Knock(m, len) => if StartsSession(c, e) && d.listening then Some(Notified(Get32(m, 32))) else None
    case Arrive(m, len, io) =>
      if c.newSize == 0 && d.newSize != 0 then Some(Informed(Get32(m, 32), Get32(m, 36), Get32(m, 40)))
      else if d.psn != c.psn && HEADER_SIZE <= len <= MESSAGE_SIZE then Some(Stored(Get32(m, 24), Payload(m, len)))
      else if d.handed != c.handed then Some(Finished)
      else None
    case Silence => None
  }

  function Append(t: seq<Item>, item: Option<Item>): seq<Item> {
    if item.Some? then t + [item.value] else t
  }

  function Transcript(c: Client, es: seq<Event>): seq<Item> {
    if es == [] then []
    else
      var before, e := es[..|es| - 1], es[|es| - 1];
      Append(if StartsSession(Run(c, before), e) then [] else Transcript(c, before), Accepted(Run(c, before), e))
  }

  ghost predicate InOrder(ds: seq<Item>) {
    forall i :: 0 <= i < |ds| ==> ds[i].Stored? && ds[i].psn == i
  }

  function Joined(ds: seq<Item>): seq<Byte> {
    if ds == [] then []
    else Joined(ds[..|ds| - 1]) + (if ds[|ds| - 1].Stored? then ds[|ds| - 1].payload else [])
  }

  /** One NTF, one INFO of the same version, then the packets 0, 1, 2, ... and nothing else; the
      file is their payloads joined in that order. */
  ghost predicate Story(c: Client, t: seq<Item>) {
    && |t| == 2 + c.psn
    && t[0] == Notified(c.newVersion)
    && t[1] == Informed(c.newVersion, c.newSize, c.newCrc)
    && InOrder(t[2..])
    && c.disk == Some(Joined(t[2..]))
  }

  ghost predicate Told(c: Client, t: seq<Item>) {
    && (c.status == CHK ==> t == [Notified(c.newVersion)])
    && (c.status == RDY || c.status == DATA || c.status == DONE ==> Story(c, t))
    && (Delivered(c) ==> |t| > 0 && t[|t| - 1] == Finished && Story(c, t[..|t| - 1]))
  }

  lemma StorySame(c: Client, t: seq<Item>, d: Client)
    requires d.psn == c.psn && d.disk == c.disk
    requires d.newVersion == c.newVersion && d.newSize == c.newSize && d.newCrc == c.newCrc
    ensures Story(c, t) <==> Story(d, t)
  {
  }

  /** Storing the next packet extends the story by exactly that packet. */
  lemma StoryGrows(c: Client, t: seq<Item>, d: Client, payload: seq<Byte>)
    requires Story(c, t)
    requires d.newVersion == c.newVersion && d.newSize == c.newSize && d.newCrc == c.newCrc
    requires d.psn == c.psn + 1 && d.disk == Some(Written(c.disk) + payload)
    ensures Story(d, t + [Stored(c.psn, payload)])
  {
    var u := t + [Stored(c.psn, payload)];
    assert u[2..] == t[2..] + [Stored(c.psn, payload)];
    assert u[2..][..|u[2..]| - 1] == t[2..];
  }

  lemma ToldData(c: Client, t: seq<Item>, m: Buffer, len: nat, io: Io)
    requires Sound(c) && Told(c, t) && Underway(c) && Intact(m, len)
    requires IdOf(Get32(m, 16)) == Some(DATA)
    ensures var e := Arrive(m, len, io); Told(Step(c, e), Append(t, Accepted(c, e)))
  {
    hide Intact, Checksum, Packets, ClientCxlFrame, RtxFrame, DoneFrame, Get32, Payload, ExpectedLength, Story;
    IntactLength(m, len);
    PacketsInRange(c.newSize);
    var d := Step(c, Arrive(m, len, io));
    assert d.handed == c.handed && d.newSize == c.newSize && d.newVersion == c.newVersion && d.newCrc == c.newCrc;
    if d.psn != c.psn {
      StoryGrows(c, t, d, Payload(m, len));
    } else if Underway(d) {
      StorySame(c, t, d);
    }
  }

  lemma ToldInfo(c: Client, t: seq<Item>, m: Buffer, len: nat, io: Io)
    requires Sound(c) && Told(c, t) && Underway(c) && Intact(m, len)
    requires IdOf(Get32(m, 16)) == Some(INFO)
    ensures var e := Arrive(m, len, io); Told(Step(c, e), Append(t, Accepted(c, e)))
  {
    hide Intact, Checksum, Packets, ClientCxlFrame, RdyFrame, Get32, Payload;
    var u := Append(t, Accepted(c, Arrive(m, len, io)));
    if |u| == 2 {
      assert u[2..] == [];
    }
  }

  lemma ToldFin(c: Client, t: seq<Item>, m: Buffer, len: nat, io: Io)
    requires Sound(c) && Told(c, t) && Underway(c) && Intact(m, len)
    requires IdOf(Get32(m, 16)) == Some(FIN)
    ensures var e := Arrive(m, len, io); Told(Step(c, e), Append(t, Accepted(c, e)))
  {
    hide Intact, Checksum, Packets, ClientCxlFrame, Get32, Payload, Joined, InOrder;
    assert (t + [Finished])[..|t + [Finished]| - 1] == t;
  }

  lemma ToldOther(c: Client, t: seq<Item>, m: Buffer, len: nat, io: Io)
    requires Sound(c) && Told(c, t)
    requires IdOf(Get32(m, 16)) !in {Some(NTF), Some(DATA), Some(INFO), Some(FIN)} || !Intact(m, len)
        || !Underway(c) || IsNtf(m)
    ensures var e := Arrive(m, len, io); Told(Step(c, e), Append(t, Accepted(c, e)))
  {
    hide Intact, Checksum, Packets, ClientCxlFrame, Get32, Payload, Story;
  }

  lemma ToldArrive(c: Client, t: seq<Item>, m: Buffer, len: nat, io: Io)
    requires Sound(c) && Told(c, t)
    ensures var e := Arrive(m, len, io); Told(Step(c, e), Append(t, Accepted(c, e)))
  {
    hide Step, Sound, Told, Intact, Get32, Accepted, Append;
    if Underway(c) && Intact(m, len) && !IsNtf(m) {
      match IdOf(Get32(m, 16)) {
        case Some(DATA) => ToldData(c, t, m, len, io);
        case Some(INFO) => ToldInfo(c, t, m, len, io);
        case Some(FIN) => ToldFin(c, t, m, len, io);
        case _ => ToldOther(c, t, m, len, io);
      }
    } else {
      ToldOther(c, t, m, len, io);
    }
  }

  lemma ToldKnock(c: Client, t: seq<Item>, m: Buffer, len: nat)
    requires Sound(c) && Told(c, t)
    ensures var e := Knock(m, len); Told(Step(c, e), Append(if StartsSession(c, e) then [] else t, Accepted(c, e)))
  {
    hide Intact, Checksum, Packets, ClientCxlFrame, ChkFrame, Get32, Story, OnInfo, OnData, OnFin, OnCxl;
  }

  lemma ToldStep(c: Client, t: seq<Item>, e: Event)
    requires Sound(c) && Told(c, t)
    ensures Told(Step(c, e), Append(if StartsSession(c, e) then [] else t, Accepted(c, e)))
  {
    hide ClientCxlFrame, Story, Checksum, Begin, Handle, Packets, IsNtf;
    match e
    case Arrive(m, len, io) => ToldArrive(c, t, m, len, io);
    case Knock(m, len) => ToldKnock(c, t, m, len);
    case Silence =>
  }

  lemma {:induction false} ToldRun(c: Client, es: seq<Event>)
    requires Sound(c) && Told(c, [])
    ensures Sound(Run(c, es)) && Told(Run(c, es), Transcript(c, es))
  {
    hide Step, Sound, Told, StartsSession, Accepted, Append;
    SoundRun(c, es);
    if es != [] {
      var before := es[..|es| - 1];
      ToldRun(c, before);
      ToldStep(Run(c, before), Transcript(c, before), es[|es| - 1]);
    }
  }

  // ---- The guarantees ----

  /** Whatever arrives, what has been written while a file is being received is exactly the accepted
      payloads 0, 1, ..., psn - 1 of one announced transfer, joined in order. */
  lemma WrittenIsAccepted(version: u32, leftover: Option<seq<Byte>>, es: seq<Event>)
    ensures var c, t := Run(Fresh(version, leftover), es), Transcript(Fresh(version, leftover), es);
            c.status == RDY || c.status == DATA || c.status == DONE ==> Story(c, t)
  {
    hide Step, Sound, Story;
    FreshSound(version, leftover);
    ToldRun(Fresh(version, leftover), es);
  }

  /** A complete transfer of version `v`: `n` bytes with checksum `x`, in packets `ds`. */
  ghost predicate WholeTransfer(t: seq<Item>, v: u32, n: u32, x: u32, ds: seq<Item>) {
    && t == [Notified(v), Informed(v, n, x)] + ds + [Finished]
    && |ds| == Packets(n) && InOrder(ds)
    && |Joined(ds)| == n && Checksum(Joined(ds)) == x
  }

  /** The file handler runs only at the end of a complete transfer: it is given the joined payloads,
      which have the size and checksum INFO announced, under the version NTF and INFO both named. */
  lemma HandlerGetsWholeTransfer(version: u32, leftover: Option<seq<Byte>>, es: seq<Event>, e: Event)
    requires Run(Fresh(version, leftover), es + [e]).handed != Run(Fresh(version, leftover), es).handed
    ensures exists v, n, x, ds ::
              && WholeTransfer(Transcript(Fresh(version, leftover), es + [e]), v, n, x, ds)
              && Run(Fresh(version, leftover), es + [e]).handed
                 == Run(Fresh(version, leftover), es).handed + [Delivery(Some(Joined(ds)), v)]
  {
    hide Step, Sound, InOrder, Joined, Accepted, StartsSession, WholeTransfer;
    var f := Fresh(version, leftover);
    var c, t := Run(f, es), Transcript(f, es);
    FreshSound(version, leftover);
    ToldRun(f, es);
    assert (es + [e])[..|es + [e]| - 1] == es;
    OnlyFinDelivers(c, e);
    assert Transcript(f, es + [e]) == t + [Finished];
    StoryCompletes(c, t);
    assert WholeTransfer(t + [Finished], c.newVersion, c.newSize, c.newCrc, t[2..]);
  }

  lemma StoryCompletes(c: Client, t: seq<Item>)
    requires Story(c, t) && Verified(c) && c.total == Packets(c.newSize)
    ensures WholeTransfer(t + [Finished], c.newVersion, c.newSize, c.newCrc, t[2..]) && c.disk == Some(Joined(t[2..]))
  {
    hide Checksum, Packets, Joined, InOrder;
    assert t == [Notified(c.newVersion), Informed(c.newVersion, c.newSize, c.newCrc)] + t[2..];
  }

  lemma OnlyFinDelivers(c: Client, e: Event)
    requires Sound(c) && Step(c, e).handed != c.handed
    ensures e.Arrive? && c.status == DONE && !StartsSession(c, e) && Accepted(c, e) == Some(Finished)
    ensures Step(c, e).handed == c.handed + [Delivery(c.disk, c.newVersion)] && Step(c, e).psn == c.psn
    ensures Verified(c) && c.total == Packets(c.newSize)
  {
    hide Intact, Checksum, Packets, Get32, Payload, ClientCxlFrame, ChkFrame, RdyFrame, RtxFrame, DoneFrame,
      ExpectedLength;
  }

  function Sessions(c: Client, es: seq<Event>): nat {
    if es == [] then 0
    else
      var before, e := es[..|es| - 1], es[|es| - 1];
      Sessions(c, before) + if StartsSession(Run(c, before), e) then 1 else 0
  }

  /** The handler runs at most once per session. */
  lemma {:induction false} HandlerOncePerSession(c: Client, es: seq<Event>)
    requires Sound(c) && c.handed == [] && !Underway(c)
    ensures var d := Run(c, es);
            |d.handed| <= Sessions(c, es) && (Underway(d) ==> |d.handed| < Sessions(c, es))
  {
    hide Step, Sound, StartsSession;
    if es != [] {
      var before := es[..|es| - 1];
      HandlerOncePerSession(c, before);
      SoundRun(c, before);
      HandedStep(Run(c, before), es[|es| - 1]);
    }
  }

  lemma HandedStep(c: Client, e: Event)
    requires Sound(c)
    ensures var d := Step(c, e);
            && |c.handed| <= |d.handed| <= |c.handed| + 1
            && (d.handed != c.handed ==> Underway(c) && !Underway(d))
            && (Underway(d) ==> Underway(c) || StartsSession(c, e))
            && (d.handed == c.handed ==> |d.handed| == |c.handed|)
  {
    hide Intact, Checksum, Packets, Get32, Payload, ClientCxlFrame, ChkFrame, RdyFrame, RtxFrame, DoneFrame,
      ExpectedLength;
  }

  /** The id of the message a step sent, if it sent one. */
  function SentId(c: Client, d: Client): Option<MessageId>
    requires |d.sent| == |c.sent| + 1 && |d.sent[|c.sent|]| >= HEADER_SIZE
  {
    IdOf(Get32(d.sent[|c.sent|], 16))
  }

  /** The one datagram, if any, that a step from `c` to `d` sent. */
  ghost predicate Spoke(c: Client, d: Client) {
    || d.sent == c.sent
    || (d.sent == c.sent + [ClientCxlFrame()] && d.status == CXL)
    || (d.sent == c.sent + [ChkFrame(c.curVersion)] && d.status == CHK)
    || (d.sent == c.sent + [RdyFrame(d.newVersion, d.newSize, c.gap)] && d.status == RDY)
    || (d.sent == c.sent + [RtxFrame(c.psn)] && d.status == c.status == DATA)
    || (d.sent == c.sent + [DoneFrame(d.newVersion, d.newSize, d.newCrc)] && d.status == DONE
      && c.status in {RDY, DATA})
  }

  lemma SpokeData(c: Client, m: Buffer, len: nat, io: Io)
    requires Sound(c) && Underway(c) && HEADER_SIZE <= len <= MESSAGE_SIZE
    ensures Spoke(c, OnData(c, m, len, io))
  {
    hide Checksum, Packets, Get32, Payload, ClientCxlFrame, ChkFrame, RdyFrame, RtxFrame, DoneFrame, ExpectedLength;
  }

  lemma SpokeStep(c: Client, e: Event)
    requires Sound(c)
    ensures Spoke(c, Step(c, e))
  {
    hide Intact, Checksum, Packets, Get32, Payload, ClientCxlFrame, ChkFrame, RdyFrame, RtxFrame, DoneFrame, OnData;
    if e.Arrive? && Underway(c) && Intact(e.m, e.len) {
      IntactLength(e.m, e.len);
      SpokeData(c, e.m, e.len, e.io);
    }
  }

  /** Whoever enters DONE says so. */
  lemma DoneIsSaid(c: Client, e: Event)
    requires Sound(c) && c.status != DONE && Step(c, e).status == DONE
    ensures Step(c, e).sent != c.sent
  {
    hide Intact, Checksum, Packets, Get32, Payload, ClientCxlFrame, ChkFrame, RdyFrame, RtxFrame, DoneFrame,
      ExpectedLength;
  }

  /** A DONE goes out exactly when DONE is entered, and only for a file on disk whose length and
      checksum are those INFO announced. */
  lemma DoneOnlyWhenVerified(c: Client, e: Event)
    requires Sound(c)
    ensures var d := Step(c, e);
            && (d.status == DONE && c.status != DONE ==> d.sent != c.sent)
            && (d.sent != c.sent ==>
                  && |d.sent| == |c.sent| + 1 && |d.sent[|c.sent|]| >= HEADER_SIZE
                  && (SentId(c, d) == Some(DONE) <==> d.status == DONE && c.status != DONE)
                  && (SentId(c, d) == Some(DONE) ==>
                        Verified(d) && d.sent[|c.sent|] == DoneFrame(d.newVersion, d.newSize, d.newCrc)))
  {
    hide Step, Verified, ClientFrame, Get32;
    var d := Step(c, e);
    SoundStep(c, e);
    SpokeStep(c, e);
    if d.status == DONE && c.status != DONE {
      DoneIsSaid(c, e);
    }
    ClientFrameId(CXL, []);
    ClientFrameId(CHK, Put32(c.curVersion));
    ClientFrameId(RDY, Put32(d.newVersion) + Put32(d.newSize) + Put32(c.gap));
    ClientFrameId(RTX, Put32(c.psn));
    ClientFrameId(DONE, Put32(d.newVersion) + Put32(d.newSize) + Put32(d.newCrc));
  }

  // ---- Ends of sessions ----

  ghost predicate NoNtfKnock(es: seq<Event>) {
    forall i :: 0 <= i < |es| ==> !(es[i].Knock? && IsNtf(es[i].m))
  }

  /** Once cancelled, or finished, nothing more is written, sent or delivered until a new NTF. */
  lemma {:induction false} OverMeansOver(c: Client, es: seq<Event>)
    requires Sound(c) && !Underway(c) && NoNtfKnock(es)
    ensures Run(c, es) == c
  {
    hide Handle, IsNtf, Cancel;
    if es != [] {
      OverMeansOver(c, es[..|es| - 1]);
    }
  }

  /** A valid CXL, or silence, ends any session that is under way; a CXL that finds the file open
      removes it, and nothing else does. */
  lemma CancellationEnds(c: Client, e: Event)
    requires Sound(c) && Underway(c)
    requires e.Silence? || (e.Arrive? && Intact(e.m, e.len) && IdOf(Get32(e.m, 16)) == Some(CXL))
    ensures var d := Step(c, e);
            d.status == CXL && !Underway(d) && d.handed == c.handed && d.sent == c.sent + [ClientCxlFrame()]
            && d.disk == if e.Arrive? && c.open then None else c.disk
  {
    hide Intact, Get32, ClientCxlFrame, Checksum;
  }

  /** No event ever changes the client again. */
  ghost predicate Stuck(c: Client) {
    forall es: seq<Event> :: Run(c, es) == c
  }

  lemma {:induction false} DeafForever(c: Client, es: seq<Event>)
    requires c.active && !c.listening
    ensures Run(c, es) == c
  {
    hide Handle, IsNtf, Begin;
    if es != [] {
      DeafForever(c, es[..|es| - 1]);
    }
  }

  lemma SomeNtf() returns (m: Buffer)
    ensures IsNtf(m)
  {
    hide Layout, Get32, IdOf, Code;
    var h := Header(MAGIC, 0, 0, 1, 4, Code(NTF), 0, 0, 4);
    var rest := seq(PAYLOAD_SIZE, _ => 0 as Byte);
    m := Layout(h) + rest;
    LayoutReads(h, rest);
    ReadFields(m);
    IdOfCode(NTF);
  }

  lemma RunOne(c: Client, e: Event)
    ensures Run(c, [e]) == Step(c, e)
  {
    hide Step;
    assert [e][..0] == [];
    assert Run(c, [e]) == Step(Run(c, []), e);
  }

  lemma IdleIsNotStuck(c: Client)
    requires !c.active
    ensures !Stuck(c)
  {
    hide Intact, Checksum, Get32, ClientCxlFrame, ChkFrame;
    var m := SomeNtf();
    var e := Knock(m, 36);
    RunOne(c, e);
    assert Step(c, e) != c;
  }

  /** A datagram at the well-known port of an idle client leaves it unable ever to serve again
      exactly when it claims to be an NTF and fails the integrity check. */
  lemma StuckIffDamagedNtf(c: Client, m: Buffer, len: nat)
    requires Sound(c) && !c.active
    ensures Stuck(Step(c, Knock(m, len))) <==> IsNtf(m) && !Intact(m, len)
  {
    hide Intact, Checksum, Get32, ClientCxlFrame, ChkFrame, Stuck, Run;
    var d := Step(c, Knock(m, len));
    if IsNtf(m) && !Intact(m, len) {
      DeafIsStuck(d);
    } else if !d.active {
      IdleIsNotStuck(d);
    } else {
      RunOne(d, Silence);
      SilenceCounts(d);
    }
  }

  lemma DeafIsStuck(c: Client)
    requires c.active && !c.listening
    ensures Stuck(c)
  {
    forall es: seq<Event> ensures Run(c, es) == c {
      DeafForever(c, es);
    }
  }

  lemma SilenceCounts(c: Client)
    requires c.active && c.listening
    ensures !Stuck(c)
  {
    hide ClientCxlFrame;
    RunOne(c, Silence);
  }
}
