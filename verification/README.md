# TRFTP: a model of the transfer protocol, with proofs

TRFTP sends one file from a server to a client over UDP: a handshake (NTF, CHK, INFO, RDY), numbered DATA
packets of at most 1408 bytes, requests for retransmission (RTX), and a confirmed end (DONE, FIN); CXL ends
a transfer at any point. This project models both sides, the code that packs and checks their messages, and a
network that may lose, duplicate, reorder and damage datagrams.

## How it is built

- `Words`, `BitwiseCrc`, `CrcTable`, `Frame`, `Segments`: bytes, the CRC-32 of section 8 of RFC 1952 bit by bit
  and by the 256-entry table, the packed message, the cutting of a file into packets, with the 32-bit arithmetic
  of each side.
- `Receiver` is the receiving transaction as a state machine; `ClientTransactions` is the class with its fields
  updated in place, each method proved to do what the machine says. `ReceiverSafety` has what holds against any
  stream of datagrams whatever.
- `Sender` is the sending side at the granularity of single accesses to the shared atomics: handshake driver,
  message handler, send loop and abort, in any interleaving. `ServerTransactions` is the class; between two
  accesses its methods give way to any steps of the other threads. `SenderSafety` and `SenderSession` have what
  holds under every interleaving.
- `World` joins the two. What has been sent may be delivered any number of times, or never, in any order, and
  damaged: any bytes of the crc field, or other bytes within four consecutive ones, of a datagram that was valid
  when sent. `ClientView` and `WorldSafety` have the joint invariant, `EndToEnd` what it means, `Completion` that
  transfers do complete, `Retransmission` what becomes of requests, `Prospects` from where FIN can still be returned,
  `Handover` when the handler is called, and `EarlyReplies` and `Limits` where the code stops short of what one
  might expect.
- `Wire` reads every datagram from its bytes, and `Outcomes` says what any one datagram does to either side, and that
  whoever gives up says so.

A run is any finite list of actions; an action that is not enabled changes nothing. Timeouts, file errors and
scheduling are choices of the run. Integers wrap where the source's 32-bit integers do; the sender's size is the
file's size modulo 2^32. The temporary file's content is a byte sequence; the file handler is the list of what it
was given. An NTF that comes again after a session is over begins another; `World` counts the sessions. A
datagram's actual length and the `pl` of its header are kept apart: they differ for the last packet of a file
whose size is a multiple of 1408.

## What the code does not do

Each of these is proved together with the condition under which the code does better.

- A file is deliverable exactly when its size is above 1408 and no multiple of 1408, rounding it up does not wrap,
  and the announced checksum is that of the announced bytes (`Completion.CompletableIffDeliverable`).
- A lost packet 0 is not repaired, and a duplicate of it cancels the session (`Limits.PacketOutcome`).
- A request consumed in the tail wait resumes one packet late, unless another request comes in before the loop looks
  for one (`Limits.TailRequestSkipsOne`). A gap noticed by the last packet is therefore repaired one round later, and
  a lost packet tpn - 2 not at all on a network that delivers everything once and at once
  (`Retransmission.TailGapRepair`, `LastButOneNeverComes`, `OnlyTheLastAgain`, `SecondRequestRepairs`).
- A DONE that arrives before the loop has ended, the tail wait included, is discarded; the two sides can so disagree
  for good with nothing lost (`Limits.DoneNeedsTheLoopToEnd`, `Limits.DoneDropped`).
- A reply that is in before `WaitForStatus` samples the status is never heard (`Limits.EarlyReplyMissed`). The driver can
  go on if and only if the reply is still to come (`EarlyReplies.HeardIffStillToCome`), and the sample decides what a
  timeout is worth (`EarlyReplies.SampleDecides`).
- An abort can be overwritten, and the transfer still be reported as finished: exactly when, says
  `Prospects.AbortedFinIff`.
- FIN returned does not mean that the handler is called: FIN can be lost, or a duplicate cancel first
  (`Handover.FinNotHeard`); exactly when it still is, say `Handover.HandedOverIff` and `Handover.CanStillHandOverIff`.
- An NTF that fails the integrity check leaves the client alive with no receive thread: it serves nobody again, and
  nothing else at the well-known port does that (`ReceiverSafety.StuckIffDamagedNtf`).
- A file of 2^32 bytes or more is announced with its size modulo 2^32 and the checksum of all its bytes
  (`EndToEnd.Agreement`).

## Model

| member | source | states |
|---|---|---|
| EndToEnd.PrefixSafety | src/client/client_transaction.cpp:211-229 | In every state of every run of sender, receiver and network, what the receiver has written is exactly the first min(psn * 1408, size) bytes of the source, whatever requests, losses, duplicates, reorderings and damage there were |
| EndToEnd.Agreement | src/server/server.cpp:99-116 | Once StartFileTransfer has returned FIN the receiver has sent DONE for this job, and in every later state with one session begun its file is the source; it is the whole source exactly when that is shorter than 2^32 bytes |
| EndToEnd.HandlerGetsSource | src/client/client_transaction.cpp:251-271 | The file handler runs only after the sender accepted DONE and sent FIN, at most once a session, and always with the source's bytes and the sender's version |
| EndToEnd.NeverAhead | src/client/client_transaction.cpp:163-247 | In DATA the expected psn is in 1..tpn-1; the receiver is at most one past the highest psn the sender has reached and only ever past a packet that was sent; every RTX asks for a psn in 1..tpn-1 |
| EndToEnd.FinStays | src/server/server.cpp:113-116 | A FIN result is final over every continuation of a run, and sessions are never uncounted |
| Completion.CompletableIffDeliverable | src/server/server.cpp:66-116 | Over all runs, StartFileTransfer can return FIN if and only if the 32-bit size is above 1408, not a multiple of 1408, does not wrap when rounded up, and the announced checksum is that of the announced bytes |
| Completion.CompletionWitness | src/server/server.cpp:66-116 | For every such job there is a run from the initial state in which both sides reach FIN and the handler is given the source |
| Retransmission.GapRepair | src/client/client_transaction.cpp:211-216 | An out-of-order packet short of the last changes nothing at the receiver but that it asks for the one it expects; the sender takes the request and stands at exactly that packet, having sent no other DATA in between; a continuation of that same run completes the transfer |
| Retransmission.TailGapRepair | src/server/server_transaction.cpp:256-264 | A gap at k noticed by the last packet, k at most tpn - 3: the tail wait resumes at k + 1, whose delivery is answered by a second request, and then the loop stands at k; a continuation of that same run completes the transfer |
| Retransmission.LastButOneNeverComes | src/server/server_transaction.cpp:256-264 | A gap at tpn - 2 noticed by the last packet: after any number n of prompt rounds (last packet, request, tail wait) sender and receiver are where they were, with the last packet sent n times more, n more requests, and the file unchanged |
| Retransmission.OnlyTheLastAgain | src/server/server_transaction.cpp:214-267 | Under every interleaving: with the loop at the last packet and nothing pending, if requests are stored only for tpn - 2 and only during the tail wait, every further DATA is the last packet; so for tpn - 2 to be sent again a request must be stored outside the tail wait |
| Retransmission.SecondRequestRepairs | src/server/server_transaction.cpp:257-264 | The same request delivered once more between the exchange in the tail wait and the next look for a request breaks that circle: the loop stands at the packet asked for and the transfer is completed |
| Retransmission.GapsHappen | src/client/client_transaction.cpp:211-216 | For every deliverable job and all 1 <= k < p < tpn some run from the start, with packets k to p - 1 lost, has the receiver expecting k and the sender about to send p |
| Retransmission.NextStand | src/server/server_transaction.cpp:214-267 | In every run, after a consumed request for r the loop stands next at r if it was consumed before the send; consumed in the tail wait, at the packet of the last request stored before the next exchange or pending before, and if there is none at r + 1, or nowhere if r was the last |
| Retransmission.TailRound | src/server/server_transaction.cpp:256-264 | One prompt round at the last packet, action by action: the receiver only asks once more, the loop comes to k + 1 |
| Retransmission.GapNoticed | src/client/client_transaction.cpp:211-216 | Any packet beyond the expected one, the last included, leaves the receiver's state as it was but for an RTX of the expected psn |
| Retransmission.GoBack | src/server/server_transaction.cpp:225-229 | With a request for k pending and the loop about to go on from p >= k, short of the last packet, the loop's own steps bring it to send k next, with no DATA between |
| Retransmission.RtxTaken | src/server/server_transaction.cpp:168-180 | The receiver's RTX passes the sender's integrity check in state DATA and names the psn it was sent for |
| Completion.CompleteFrom | src/server/server_transaction.cpp:214-267 | From any state in which the sender is about to send the packet the receiver expects, some continuation completes the transfer (induction on the packets left) |
| Completion.ToPacket | src/server/server_transaction.cpp:214-267 | From an aligned state at packet p a loss-free run leads to an aligned state at any later packet |
| Completion.OnePacket | src/server/server_transaction.cpp:214-267 | One loss-free turn of the loop moves sender and receiver together from packet p to p + 1 |
| Completion.LastPacket | src/client/client_transaction.cpp:251-271 | The last packet, DONE delivered after the loop has ended, and FIN complete the transfer |
| Completion.ToFinSent | src/client/client_transaction.cpp:229-247 | The last packet makes the receiver say DONE; delivered after the loop has ended it is accepted and FIN is sent, the receiver still waiting for it |
| Handover.HandedOverIff | src/client/client_transaction.cpp:251-271 | In every run in which StartFileTransfer has returned FIN to a receiver that has begun one session: the file handler is called in that session if and only if it has been already or the receiver is still in DONE |
| Handover.CanStillHandOverIff | src/client/client_transaction.cpp:37-47 | In every run in which StartFileTransfer has returned FIN: the handler can still be called, be it in a session that a late NTF starts over, if and only if the receiver is not alive without a receive thread |
| Handover.HandsOverAgain | src/client/client.cpp:44-66 | With every frame of a finished transfer still under way, a receiver that is not deaf can be started over and given the whole file again |
| Handover.FinNotHeard | src/client/client_transaction.cpp:66-83 | For every deliverable job there is a run in which FIN is on its way to a receiver in DONE, and the receive timeout, or a duplicate of packet 0, cancels first: FIN returned, the whole file received, no handler called |
| Completion.TakesData | src/client/client_transaction.cpp:163-247 | The packet a receiver waits for is stored; the last one leads to DONE with the announced fields and the whole source on disk |
| Completion.AnswerNtf | src/client/client_transaction.cpp:101-118 | The sender's NTF is answered by an idle receiver with CHK and starts a session for its version |
| Completion.AnswerInfo | src/client/client_transaction.cpp:120-160 | The sender's INFO is answered by RDY with the same version and size |
| Completion.ChkTaken | src/server/server_transaction.cpp:115-127 | The receiver's CHK passes the sender's checks in state NTF and its version is taken over |
| Completion.RdyTaken | src/server/server_transaction.cpp:129-141 | The receiver's RDY, whatever gap it asks for, passes the sender's checks in state INFO; the gap kept is the nearest the sender allows |
| Completion.DoneTaken | src/server/server_transaction.cpp:143-159 | The receiver's DONE passes the sender's integrity check in state DATA with the job's own version, size and checksum |
| Completion.FinTaken | src/client/client_transaction.cpp:251-271 | The sender's FIN ends a session in DONE and delivers the file on disk under the session's version |
| Limits.EveryFrameAcceptableIff | src/server/server_transaction.cpp:231-254 | Every DATA frame the loop builds passes the receiver's integrity and length checks if and only if the size is above 1408 and not a multiple of 1408 |
| Limits.AcceptableIff | src/server/server_transaction.cpp:280-285 | The same for each single packet: only the last one of a multiple of 1408, or any one of a file of at most 1408 bytes, is refused |
| Limits.PacketOutcome | src/client/client_transaction.cpp:163-216 | What each intact packet does to a receiver under way, three equivalences: stored exactly when expected, answered by RTX exactly in DATA for another packet than 0, otherwise the session is cancelled; hence a lost packet 0 is not repaired and a duplicate of it cancels |
| Limits.TailRequestSkipsOne | src/server/server_transaction.cpp:257-264 | In every run the packet the loop stands at after consuming a request for r is r if and only if the request was consumed before the send or the request found at the next exchange is for r; a tail request with none found after it resumes at r + 1, or the loop ends if r was the last |
| Limits.DoneNeedsTheLoopToEnd | src/server/server_transaction.cpp:149-159 | In every run a DONE with the right fields is accepted exactly when the psn has reached the packet count, so one that arrives in the loop's body, tail wait included, is discarded |
| Limits.DoneDropped | src/server/server_transaction.cpp:149-154 | For every deliverable job there is a run in which the receiver's DONE is delivered to the sender and looked at while the loop is in its tail wait with the status still DATA, and a continuation in which StartFileTransfer returns CXL while the receiver is in DONE with the whole file; that result then stands and the handler is never called |
| Limits.EarlyReplyMissed | src/server/server_transaction.cpp:191-201 | There is a run in which the receiver has answered and the answer is stored in the sender's status while the driver has yet to sample it, and a continuation of that run in which StartFileTransfer returns NTF |
| EarlyReplies.HeardIffStillToCome | src/server/server_transaction.cpp:191-201 | In every run and for each of the three waits: when the driver is about to sample the old status, some continuation goes on to the next stage if and only if the reply is still to come: it is being stored, or can still be taken in |
| EarlyReplies.TooLateEndsIt | src/server/server.cpp:66-111 | In every run and for each of the three waits, a reply or a cancellation that is in before the sample ends the transfer: whatever follows, the driver never goes on, and returns NTF or CXL from the wait for CHK, CXL from the others |
| EarlyReplies.SampleDecides | src/server/server_transaction.cpp:191-201 | In every run: with the stage's own status sampled, the wait times out only with that status unchanged and a reply that is in is heard even when time is up; with any other sample it times out only with a reply or a cancellation in |
| Prospects.FinIff | src/server/server.cpp:66-116 | In every state of every run, and whatever the dispatcher may yet be given: some continuation returns FIN if and only if the driver is about to store the status of a stage, or waits for a reply that has come in time or is still to come, or has heard DONE; for DONE this takes in the pending request and the send loop's place |
| Prospects.AbortedFinIff | src/server/server.cpp:118-127 | In every run, a transfer aborted at any point can still be reported as finished if and only if the driver is about to overwrite the status or has heard DONE, or the reply it waits for is already being stored, or DONE has been taken in with the loop at its end or sure to reach it past its last look at the status |
| Prospects.LostRun | src/server/server.cpp:66-116 | What cannot return FIN any more never can again, under every continuation |
| Prospects.RunsOut | src/server/server_transaction.cpp:214-267 | Left alone, a loop that can still end does, with every request still pending |
| Prospects.ShakingRun | src/server/server.cpp:66-111 | In every run the status and the handler's pending result are among those of the stage the driver is in |
| Outcomes.RepliesTaken | src/server/server_transaction.cpp:115-141 | Any intact CHK, RDY or RTX: taken in exactly in the status that waits for it and at its own length, a request only up to the psn, with the version, the clamped gap or the request kept; else nothing changes |
| Outcomes.DoneTakenOrNot | src/server/server_transaction.cpp:143-159 | Any intact DONE: accepted exactly in DATA, with the psn at the packet count, at 44 bytes and with the three announced fields; else nothing changes |
| Outcomes.CancelTaken | src/server/server_transaction.cpp:161-189 | Any intact CXL of 32 bytes cancels, in any status; one of another length, a damaged datagram and any id that is not the receiver's to send change nothing |
| Outcomes.PeerStopsTheLoop | src/server/server_transaction.cpp:161-166 | In every run, the receiver's CXL taken in during the data phase is stored, and at most one more DATA datagram is sent over every continuation |
| Outcomes.HandledIsRun | src/server/server_transaction.cpp:99-189 | The dispatcher's three steps, undisturbed, are one handling of a datagram |
| Outcomes.GivingUpIsTold | src/server/server.cpp:78-111 | A wait for RDY or DONE that ends without it and without a CXL: under every interleaving the only result is CXL, and the driver has stored CXL and sent it before returning |
| Outcomes.GivingUp | src/server/server.cpp:92-97 | From giving up to returning the driver goes through the store of CXL and the send of one CXL frame, and nowhere else |
| Outcomes.CxlSays | src/server/server_transaction.cpp:77-96 | The sender's CXL is 32 bytes long and says CXL |
| Outcomes.FailureIsTold | src/server/server_transaction.cpp:206-245 | In every run, a file that cannot be opened or read takes the loop into failure and nowhere else, and once it has ended it has stored CXL and sent it |
| Outcomes.AbortTells | src/server/server.cpp:118-127 | An abort after the return changes nothing; any other stores CXL and owes one CXL, which is then sent |
| Outcomes.NtfOutcome | src/client/client_transaction.cpp:37-64 | Any NTF at the port of an idle client: CHK and a fresh session at its own length, cancelled at another, left deaf if damaged; nothing of an earlier session remains but its file |
| Outcomes.InfoOutcome | src/client/client_transaction.cpp:120-161 | Any intact INFO: RDY exactly in CHK, at 44 bytes, for the announced version and a size other than 0, if the file opens, with an empty file and the announced fields kept; else cancelled, with CXL sent and the file left alone |
| Outcomes.DataOutcome | src/client/client_transaction.cpp:163-227 | Any intact DATA whatever its numbers: cancelled in the wrong status or at the wrong length, else answered by RTX alone if out of order, else cancelled if the write fails, else appended |
| Outcomes.LastOutcome | src/client/client_transaction.cpp:229-247 | After a stored packet: DATA goes on; the last one gives DONE if the file has the announced length and checksum, and CXL if not |
| Outcomes.FinOutcome | src/client/client_transaction.cpp:251-271 | Any intact FIN: taken exactly in DONE and without payload, with the file handed over; else cancelled |
| Outcomes.SaysOnlyItsOwn | src/client/client_transaction.cpp:289-337 | Each of the five ids is said as one datagram of that id, becoming the status but for RTX, and CXL ends activity; any other id says nothing and changes nothing |
| Outcomes.Dropped | src/client/client_transaction.cpp:90-94 | A damaged datagram, or one whose id is not the sender's to send, changes nothing |
| Outcomes.PortDiscards | src/client/client.cpp:57-64 | A client in session discards everything at its port, an idle one everything but NTF |
| World.AcceptedIsGenuine | src/client/client_transaction.cpp:358-369 | A datagram that passes the integrity check after the network's damage is the one that was sent |
| WorldSafety.WorldInvStep | src/client/client_transaction.cpp:85-287 | The joint invariant of sender, receiver and everything ever sent is kept by every step of either side and by every delivery |
| WorldSafety.WorldInvRun | src/client/client_transaction.cpp:66-83 | The joint invariant holds along every run, and the job never changes |
| WorldSafety.ServerSpoke | src/server/server_transaction.cpp:48-97 | Every datagram a sender step emits is the job's NTF, INFO, CXL, FIN (only on returning FIN) or the DATA frame of a packet then recorded as sent |
| WorldSafety.ClientFrameReads | src/server/server_transaction.cpp:288-324 | Every message the receiver builds passes the sender's integrity check with its own id and payload |
| WorldSafety.DoneMeansSaid | src/server/server_transaction.cpp:143-159 | A datagram of the receiver that reads as DONE is the DONE of this job, said with the file complete |
| WorldSafety.ArrivesGenuine | src/client/client_transaction.cpp:90-94 | Whatever the receiver accepts is one of the datagrams the sender has really sent |
| WorldSafety.DoneHeardStep | src/server/server_transaction.cpp:143-159 | The sender comes to know of DONE only by accepting a datagram that says DONE |
| WorldSafety.NewFromClient | src/client/client_transaction.cpp:289-337 | What a receiver step emits against an honest sender is CHK, the job's RDY or DONE, CXL, or an RTX of 1..tpn-1 |
| WorldSafety.DoneIsDeliverable | src/client/client_transaction.cpp:229-246 | A receiver in DONE holds a complete file of a deliverable job |
| WorldSafety.AllInKept | src/client/client_transaction.cpp:211-247 | A complete file stays complete through any event but the start of another session |
| ClientView.NtfReads | src/client/client_transaction.cpp:99-110 | The sender's NTF passes the receiver's checks and decodes to the job's version |
| ClientView.InfoReads | src/client/client_transaction.cpp:120-150 | The sender's INFO passes the receiver's checks and decodes to the job's version, size and checksum |
| ClientView.FinReads | src/client/client_transaction.cpp:251-263 | The sender's FIN passes the receiver's checks |
| ClientView.CxlReads | src/client/client_transaction.cpp:273-282 | The sender's CXL passes the receiver's integrity check with an empty payload |
| ClientView.DataReads | src/server/server_transaction.cpp:231-254 | Each DATA frame decodes to its own psn, packet count and chunk, and is intact except the last one of a file whose size is a multiple of 1408 |
| ClientView.PrefixGrows | src/client/client_transaction.cpp:211-229 | Appending chunk p to the prefix of p packets gives the prefix of p + 1; the last one gives the whole |
| ClientView.KeptData | src/client/client_transaction.cpp:163-247 | Any genuine DATA datagram, in any state and with any write failure, keeps the receiver's file a prefix of the source |
| ClientView.KeptArrive | src/client/client_transaction.cpp:85-287 | So does anything at all that arrives at the session's socket from an honest sender |
| ClientView.KeptKnock | src/client/client_transaction.cpp:37-47 | So does anything that arrives at the well-known port, damaged or not |
| ReceiverSafety.WrittenIsAccepted | src/client/client_transaction.cpp:163-247 | Against arbitrary datagrams: what is on disk during a transfer is the accepted payloads with psn 0, 1, ..., psn - 1 joined in that order, after one NTF and one INFO of the same version |
| ReceiverSafety.HandlerGetsWholeTransfer | src/client/client_transaction.cpp:251-271 | Against arbitrary datagrams: the handler runs only at the end of NTF, INFO of the same version, all packets in order, FIN; it gets the joined payloads, whose length and checksum are those INFO announced |
| ReceiverSafety.HandlerOncePerSession | src/client/client_transaction.cpp:251-271 | Deliveries never exceed sessions begun, and a session under way has not delivered yet |
| ReceiverSafety.DoneOnlyWhenVerified | src/client/client_transaction.cpp:229-246 | Entering DONE is always said, a DONE goes out exactly on entering DONE, and only with a file on disk that has the announced length and checksum |
| ReceiverSafety.SpokeStep | src/client/client_transaction.cpp:289-337 | A step sends at most one datagram, fixed by the status it leads to: an RTX only in DATA for the expected psn, a DONE only from RDY or DATA |
| ReceiverSafety.SoundRun | src/client/client_transaction.cpp:85-287 | The receiver's state invariant along every stream of events: active with a receive thread exactly when a session is under way, DATA implies 1 <= psn < tpn with an open file, DONE implies a verified file |
| ReceiverSafety.OnlyFinDelivers | src/client/client_transaction.cpp:251-271 | Only an accepted FIN in state DONE invokes the handler |
| ReceiverSafety.ToldRun | src/client/client_transaction.cpp:85-287 | The transcript of accepted datagrams and the state agree along every stream of events |
| ReceiverSafety.OverMeansOver | src/client/client_transaction.cpp:66-83 | After a cancellation or a delivery nothing is written, sent or delivered, and no field changes, until another NTF |
| ReceiverSafety.CancellationEnds | src/client/client_transaction.cpp:273-282 | A valid CXL or the receive timeout ends any session with CXL, no handler call and one CXL sent; a CXL that finds the file open removes it, and otherwise the file stays as it is |
| ReceiverSafety.StuckIffDamagedNtf | src/client/client_transaction.cpp:37-47 | A datagram at the well-known port makes an idle receiver unable to change ever again if and only if it claims to be an NTF and fails the integrity check |
| ReceiverSafety.DeafForever | src/client/client_transaction.cpp:66-83 | Alive with no receive thread, a receiver ignores every stream of events |
| Receiver.InactiveIgnores | src/client/client_transaction.cpp:66-83 | Once no longer active, what the receive loop leaves unread could not have changed anything |
| ClientTransactions.ClientTransaction.constructor | src/client/client_transaction.cpp:8-25 | The initial state, with whatever temporary file an earlier program left |
| ClientTransactions.ClientTransaction.Reset | src/client/client_transaction.cpp:49-64 | Clears the session's fields and no others |
| ClientTransactions.ClientTransaction.SendMessage | src/client/client_transaction.cpp:289-356 | Status, activity and the exact bytes sent, for each of the five ids; any other id changes nothing |
| ClientTransactions.ClientTransaction.Build | src/client/client_transaction.cpp:339-349 | The bytes sent are the packed header, with its checksum, and the payload |
| ClientTransactions.ClientTransaction.OnReceive | src/client/client_transaction.cpp:85-287 | Every branch of the handler takes the state where the receiver machine says, and leaves the message as it was |
| ClientTransactions.ClientTransaction.OnInfo | src/client/client_transaction.cpp:120-161 | The INFO branch, with each of its refusals and a failing open |
| ClientTransactions.ClientTransaction.OnData | src/client/client_transaction.cpp:163-249 | The DATA branch: status and length checks by position, gap, write failure, append, completion |
| ClientTransactions.ClientTransaction.CompleteFile | src/client/client_transaction.cpp:229-247 | DONE if size and table-computed checksum of the file match, else CXL |
| ClientTransactions.ClientTransaction.Begin | src/client/client_transaction.cpp:37-47 | Only an NTF starts a session; the check on its integrity comes after |
| ClientTransactions.ClientTransaction.HandleIncomingMessages | src/client/client_transaction.cpp:66-83 | The receive loop over any list of datagrams and timeouts is the run of the receiver machine over it, up to the first NTF accepted on the session's own socket, where the thread would join itself |
| Receiver.StrayNtf | src/client/client_transaction.cpp:99-107 | Any other NTF on the session's own socket is dropped if damaged and cancels if of the wrong length |
| SenderSafety.RequestsAndChunks | src/server/server_transaction.cpp:168-246 | Under every interleaving of atomic steps and any datagrams: a pending or about-to-be-stored request is at most the highest psn reached and never the sentinel; in the loop body psn < tpn, offset and length do not wrap and stay inside the file |
| SenderSafety.FinishedMeansAllSent | src/server/server_transaction.cpp:214-267 | On normal exit the DATA frame of every packet 0..tpn-1 has been sent, despite rollbacks and the tail skip; the history of psns is of frames really sent, and of no psn beyond |
| SenderSafety.SendsConserved | src/server/server_transaction.cpp:214-267 | At each loop head the DATA sent number psn plus the signed sum of what consumed requests threw back; at any time at most tpn * (1 + consumed requests) |
| SenderSafety.LoopTerminates | src/server/server_transaction.cpp:214-267 | In every run the number of loop steps is at most 10 * tpn + 12, plus 10 * (tpn + 1) for each request stored |
| SenderSafety.LoopInvRun | src/server/server_transaction.cpp:214-267 | The loop invariant (high-water mark, coverage, send count, request bounds) along every run |
| SenderSafety.LoopHistory | src/server/server_transaction.cpp:214-267 | How each loop step may move the psn, its highest value and the list of packets sent |
| SenderSafety.PotentialLoop | src/server/server_transaction.cpp:214-267 | Every step of a live loop lowers the termination measure, whatever is pending |
| SenderSafety.PotentialOthers | src/server/server_transaction.cpp:99-189 | No other thread raises the measure, except by storing a request, and then by one pass |
| SenderSafety.OthersFrame | src/server/server_transaction.cpp:99-189 | What the driver, the dispatcher and abort can change of what the loop reads |
| SenderSafety.BodyIsReadable | src/server/server_transaction.cpp:231-246 | Below tpn the chunk can be read and the header announces no more than was read |
| SenderSession.InStepRun | src/server/server.cpp:66-116 | Driver, dispatcher and loop stay in step through the shared status: no reply is stored for a stage not waited for, the loop runs only after the handshake, and DONE is known only with psn = tpn |
| SenderSession.CancellationStopsTheLoop | src/server/server_transaction.cpp:218-223 | Once CXL is stored in the data phase, by the peer or by abort, at most one more DATA datagram is sent over every continuation, and none if the loop is not past its check |
| SenderSession.DoomedRun | src/server/server_transaction.cpp:218-223 | A cancelled, ended or complete loop stays so along every run, with the datagrams still to come counted |
| ServerTransactions.ServerTransaction.constructor | src/server/server_transaction.cpp:6-22 | The initial state of a transaction, with the 32-bit size, the checksum computed by the table code and the packet count of the file |
| ServerTransactions.ServerTransaction.CompleteHeader | src/server/server_transaction.cpp:273-286 | Fills the header in place and seals it over header and pl payload bytes, leaving the payload as it was |
| ServerTransactions.ServerTransaction.Build | src/server/server_transaction.cpp:89-96 | The bytes sent are the packed header and the payload |
| ServerTransactions.ServerTransaction.BuildControl | src/server/server_transaction.cpp:63-90 | The payload fields of NTF, INFO, FIN and CXL |
| ServerTransactions.ServerTransaction.SendMessage | src/server/server_transaction.cpp:48-97 | The driver's status store and its send, or start of the loop, with any steps of other threads between them |
| ServerTransactions.ServerTransaction.StoreStatus | src/server/server_transaction.cpp:57-58 | The status is published before anything is sent |
| ServerTransactions.ServerTransaction.Transmit | src/server/server_transaction.cpp:60-96 | One datagram, the one for the id, or the start of the send loop for DATA |
| ServerTransactions.ServerTransaction.WaitForStatus | src/server/server_transaction.cpp:191-201 | Samples on entry, then either times out with the status unchanged or reads it again after it changed, with any steps of other threads in between |
| ServerTransactions.ServerTransaction.StartFileTransfer | src/server/server.cpp:66-116 | The whole handshake, branch by branch, is a run of the sender machine made of the driver's own steps and exactly the steps the other threads were given in the pauses it came to; FIN is returned only with the loop's psn at tpn and a FIN sent last, CXL only on reading it in the status or with a CXL sent last |
| ServerTransactions.ServerTransaction.Exchange | src/server/server.cpp:66-67 | A message of the handshake and the wait for its reply, which is read from the status as its last step |
| ServerTransactions.ServerTransaction.Close | src/server/server.cpp:106-115 | The driver's last message, FIN or the CXL of giving up, is sent before it returns |
| ServerTransactions.ServerTransaction.Say | src/server/server_transaction.cpp:48-97 | A SendMessage of the driver, with its next pause between the store and the send |
| ServerTransactions.ServerTransaction.Await | src/server/server_transaction.cpp:191-201 | A WaitForStatus of the driver, with one pause if it times out and two if the status changed |
| ServerTransactions.ServerTransaction.ResultOf | src/server/server.cpp:66-116 | Any run that has returned gave NTF, CXL or FIN, the last only with psn = tpn |
| ServerTransactions.ServerTransaction.AbortFileTransfer | src/server/server.cpp:118-127 | Abort finds the transaction exactly until StartFileTransfer has returned; then it stores CXL and sends one last, with any steps of the other threads between, other aborts among them, else nothing changes |
| ServerTransactions.ServerTransaction.OnReceive | src/server/server_transaction.cpp:99-189 | The handler, branch by branch, is one of four sequences of atomic steps interleaved with any steps of other threads; the message is left as it was |
| Sender.Clamp | src/server/server_transaction.cpp:140 | The gap kept is within the sender's limits, the requested one if that is, and otherwise the nearer limit |
| ServerTransactions.ServerTransaction.ValidateDone | src/server/server_transaction.cpp:149-158 | DONE is accepted on the psn read and the three announced fields |
| ServerTransactions.ServerTransaction.ValidateRtx | src/server/server_transaction.cpp:174-177 | An RTX is accepted when it is four bytes long and not beyond the psn read |
| ServerTransactions.ServerTransaction.Conclude | src/server/server_transaction.cpp:179-188 | The final store of status or request |
| ServerTransactions.ServerTransaction.SendFileAsync | src/server/server_transaction.cpp:203-271 | The loop as written is the loop thread of the sender machine for any steps of other threads and any open or read failures; it terminates, and ends normally only with the DATA frame of every packet sent |
| ServerTransactions.ServerTransaction.MayGoOn | src/server/server_transaction.cpp:214-223 | The loop condition, then the check for CXL |
| ServerTransactions.ServerTransaction.ConsumeRequest | src/server/server_transaction.cpp:225-229 | Test, exchange with the sentinel and store to the psn are three steps with others in between; used before the send and in the tail wait |
| ServerTransactions.ServerTransaction.SendChunk | src/server/server_transaction.cpp:231-254 | One DATA datagram with the psn's own bytes and header |
| ServerTransactions.ServerTransaction.Advance | src/server/server_transaction.cpp:214 | The increment adds one and does not wrap, even after a request moved the psn |
| ServerTransactions.ServerTransaction.Fail | src/server/server_transaction.cpp:240-245 | A failed open or read stores and sends CXL |
| Frame.Unpack | include/trftp/common.h:29-104 | Framing round trip: a packed message reads back as the same header and payload, and passes the integrity check if and only if the magic is right, its pl is its payload's length and psn < tpn |
| Frame.LayoutReads | include/trftp/common.h:30-42 | The packed 32-byte header read back field by field is the header |
| Frame.PayloadWord | include/trftp/common.h:44-52 | A one-field payload reads back |
| Frame.PayloadWords | include/trftp/common.h:54-78 | A three-field payload reads back |
| Frame.PackedId | include/trftp/common.h:30-42 | The id stands at the same place of every datagram |
| Frame.DamageDetected | src/client/client_transaction.cpp:358-369 | A valid datagram of any length altered within four consecutive bytes outside the crc field, or anywhere inside it, never passes the integrity check |
| Frame.SealInPlace | src/client/client_transaction.cpp:339-349 | Header fields and checksum written into the buffer give the sealed layout, payload untouched |
| Frame.ValidateMessageIntegrity | src/client/client_transaction.cpp:358-394 | The result is the integrity predicate, and the crc field is back in place whatever the outcome |
| Words.ValueOfDigits | include/trftp/common.h:30-42 | Every 32-bit value survives being stored as four bytes and read back |
| Words.DigitsOfValue | include/trftp/common.h:30-42 | Every four bytes survive being read as a value and stored back |
| Wire.ServerOnWire | src/server/server_transaction.cpp:273-286 | Every datagram of the sender, read from its bytes: the magic, source port id 0xFD00, the device as destination, the id's own four bytes, the counts, number and lengths its size calls for, the payload at byte 32 |
| Wire.ClientOnWire | src/client/client_transaction.cpp:339-349 | Every datagram of the receiver, read from its bytes: the magic, source 0, destination 0xFD00, the id's own four bytes, one packet, both lengths those of the payload |
| Wire.CodeOnWire | include/trftp/common.h:10-21 | The ids as they stand on the wire, least significant byte first |
| Wire.ClientPayloads | src/client/client_transaction.cpp:303-333 | The payload bytes of CHK, RDY, DONE, RTX and CXL, field after field |
| Wire.RdyReads | src/client/client_transaction.cpp:309-315 | RDY reads back as the version, the size and the gap it was sent for |
| Segments.Lossless | src/server/server_transaction.cpp:231-254 | The chunks joined are the file; all but the last have 1408 bytes and the last has 1 to 1408 |
| Segments.ChunksJoin | src/server/server_transaction.cpp:231-240 | The first k chunks joined are the first min(k * 1408, size) bytes, wrapped sizes included |
| Segments.ChunkInBounds | src/server/server_transaction.cpp:232-237 | For every packet below the count, offset and length do not wrap and lie inside the file |
| Segments.CountsAgree | src/server/server_transaction.cpp:15-16 | The sender's 32-bit packet count equals the header's and the receiver's if and only if size + 1407 < 2^32; otherwise it is 0 |
| CrcTable.TableEntry | src/util.cpp:6-33 | Each of the 256 entries is eight bit steps of its index with polynomial 0xEDB88320 |
| CrcTable.TableRefines | src/util.cpp:38-41 | One table lookup is the bit-by-bit step of one byte |
| CrcTable.CalculateCrc32 | src/util.cpp:35-43 | The table loop computes the bitwise CRC-32 for every buffer and starting value |
| CrcTable.CalculateFileCrc32 | src/util.cpp:45-82 | Reading in pieces of 4096 bytes gives the CRC-32 of the whole content for every length, and 0 for a file that is missing, cannot be opened, or is not as long as the file system said |
| BitwiseCrc.Continue | src/util.cpp:68-72 | crc(b, crc(a)) = crc(a ++ b) for all buffers and starting values |
| BitwiseCrc.FoldInjective | src/util.cpp:38-41 | Different states stay different over any bytes |
| BitwiseCrc.FoldFour | src/util.cpp:38-41 | Four bytes enter as one word and 32 bit steps |
| BitwiseCrc.BurstChanges | src/util.cpp:35-43 | Replacing four consecutive bytes by four others always changes the checksum |
| CrcTable.Residue | src/util.cpp:35-43 | Any data followed by its own checksum, least significant byte first, has the checksum 0x2144DF1C |
| CrcTable.CheckValue | src/util.cpp:35-43 | The checksum of the digits 123456789 is 0xCBF43926 |

## Left out

- Frame.DamageDetected: alterations spread wider than four consecutive bytes, or inside and outside the crc field at once, are not covered; a 32-bit checksum cannot always notice them.
- World.AcceptedIsGenuine: the network damages only datagrams that were valid when sent; the invalid last packet of a multiple of 1408 arrives as it is or not at all.
- EndToEnd.Agreement: the file equals the source for as long as one session has begun; a second accepted NTF makes the receiver rewrite the same temporary file.
- EndToEnd.HandlerGetsSource: the content handed over is that at the moment of the call; what the handler then does with the path is not modelled.
- ClientTransactions.ClientTransaction.CompleteFile: the file just written is taken to be readable and of the length written; the results 0 of the checksum function for other cases do not arise.
- ReceiverSafety.CancellationEnds: whether a removed file's directory entry is really gone is the file system's affair; the model drops the content.
- ClientTransactions.ClientTransaction.Begin: it is one step; the receive thread it starts takes its first datagram after the CHK has been sent.
- ClientTransactions.ClientTransaction.HandleIncomingMessages: an NTF accepted on the session's own socket ends the program, as the thread joins itself; in the composed runs such a datagram is passed over.
- Prospects.FinIff: the dispatcher may be given any datagram there; what an honest receiver gives it is for Completion.CompletableIffDeliverable.
- ServerTransactions.ServerTransaction.AbortFileTransfer: there is one transaction; its lookup by address is whether it is still registered, and the exception is the result false.
- ServerTransactions.ServerTransaction.StartFileTransfer: parsing the client address, the factory and the registration of the transaction come before the modelled part.
- ServerTransactions.ServerTransaction.SendFileAsync: the one-second tail wait and the pacing between packets are pauses of any length.
- Retransmission.LastButOneNeverComes: it follows one delivery schedule; Retransmission.OnlyTheLastAgain is for all interleavings, but only of the sender, with requests for that one packet.
- Real time, sockets, addresses and ports, among them the overwriting of the peer's address by each datagram received.
- Real file I/O: a failed write adds nothing, a successful one is visible at once, and the source file does not change during a transfer.
- Thread creation, joins, condition variables, destructors and the move constructor.
- The map of active transactions, its unsynchronised use by several threads, and dispatch by client address; after a transfer has returned the model still lets its handler take datagrams, which only adds runs.
- Datagrams left over from an earlier transfer: the protocol carries no session number, and the composed runs start on an empty network.
- Logging and the conversion of statuses to text.
