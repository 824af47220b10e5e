/** Sender and receiver joined by a network that may lose, duplicate, reorder and damage datagrams.
    What each side has sent stays deliverable for ever, any number of times, or never. A delivery may
    damage a datagram that was valid when sent, in one burst of at most four bytes or in its crc
    field; it may leave anything at all in the rest of the receive buffer. */
module World {
  import opened Wrappers
  import opened Words
  import opened Frame
  import S = Sender
  import SenderSafety
  import R = Receiver
  import ReceiverSafety

  /** `sessions` counts the NTFs that made the receiver begin (again). */
  datatype World = World(t: SenderSafety.Trace, cli: R.Client, sessions: nat)

  datatype Act =
    | Serve(a: S.Action)                                        // any step of the sender but a reception
    | ToServer(orig: Buffer, m: Buffer, len: nat)               // a client datagram reaches the dispatcher
    | ToPort(orig: Buffer, m: Buffer, len: nat)                 // a server datagram, at the well-known port
    | ToSocket(orig: Buffer, m: Buffer, len: nat, io: R.Io)     // a server datagram, at the transaction's socket
    | Silence                                                   // the receiver's timeout

  function Initial(j: S.Job, curVersion: u32, leftover: Option<seq<Byte>>): World {
    World(SenderSafety.Begun(j), R.Fresh(curVersion, leftover), 0)
  }

  /** `m` is what arrives when the datagram held in `orig` is sent: itself, or it damaged. */
  ghost predicate Conveys(orig: Buffer, m: Buffer, len: nat) {
    len <= MESSAGE_SIZE && (m[..len] == orig[..len] || (Intact(orig, len) && Damaged(orig[..len], m[..len])))
  }

  ghost predicate From(sent: seq<Datagram>, orig: Buffer, m: Buffer, len: nat) {
    Conveys(orig, m, len) && orig[..len] in sent
  }

  ghost function Step(w: World, a: Act): World {
    match a
    case Serve(b) => if b.Take? then w else w.(t := SenderSafety.TraceStep(w.t, b))
    case ToServer(orig, m, len) =>
      if From(w.cli.sent, orig, m, len) then w.(t := SenderSafety.TraceStep(w.t, S.Take(m, len))) else w
    case ToPort(orig, m, len) =>
      if From(w.t.s.sent, orig, m, len) then
        var e := R.Knock(m, len);
        w.(cli := R.Step(w.cli, e), sessions := w.sessions + if ReceiverSafety.StartsSession(w.cli, e) then 1 else 0)
      else w
    case ToSocket(orig, m, len, io) =>
      if From(w.t.s.sent, orig, m, len) then w.(cli := R.Step(w.cli, R.Arrive(m, len, io))) else w
    case Silence => w.(cli := R.Step(w.cli, R.Silence))
  }

  ghost function Run(w: World, acts: seq<Act>): World {
    if acts == [] then w else Step(Run(w, acts[..|acts| - 1]), acts[|acts| - 1])
  }

  /** Damage of this kind is always noticed, so an accepted datagram is the one that was sent. */
  lemma AcceptedIsGenuine(orig: Buffer, m: Buffer, len: nat)
    requires Conveys(orig, m, len) && Intact(m, len)
    ensures m[..len] == orig[..len]
  {
    hide Intact, Damaged;
    if m[..len] != orig[..len] {
      DamageDetected(orig, m, len);
    }
  }
}
