# HTTP4 datagram protocol: a verified model

HTTP4 sends assets over unreliable datagrams. The client decides what may be
sent: it grants byte ranges, reassembles what arrives, and asks again for what
is lost. The server is passive: it answers requests and sends only inside the
granted ranges. This project models both ends, the channel between them and the
components beside them, and proves what the repository promises of them.

| part | files |
|---|---|
| the passive sender | `Packets`, `Sender` (state and steps), `SenderRuns` (invariant), `SenderHistory` (every interleaving), `SenderTold` (what has left), `SenderReplies`, `SenderServes`, `SenderCopies`, `SenderIdle` (what each packet earns, and what idleness costs), `SenderPicks` (what is chosen), `SenderDrain` (coming to rest), `SenderRefusal` (a refused copy), `SenderSession` (the class) |
| the client | `Intervals`, `Reassembly`, `Repair`, `SeqTracker`, `Scheduler` (classes and their specifications), `RepairLoss`, `SeqFate`, `SchedulerUse` (what those mean on their own histories), `Client` (session steps), `ClientRuns`, `ClientSteps`, `ClientTruth`, `ClientHistory`, `ClientRepairs`, `ClientAwaits`, `ClientNumbers`, `ClientSeqs`, `ClientTaken`, `ClientAnswers` (every run), `ClientAsks`, `ClientReader`, `ClientArrives`, `ClientRestraint` (each step, told by what it writes and leaves), `ClientTransfer`, `Http4Client` (the classes) |
| both ends and the channel | `System` (safety), `SystemFlow` (granting keeps up), `SystemRest` (coming to rest) |
| the byte format | `Wire` (format), `WireLayout`, `WireUtf8` (its tables and its text rule), `WireGo`, `WireTs` (the two implementations), `SenderWire`, `ClientWire`, `SystemWire` (nothing is sent that cannot be encoded) |
| beside them | `ByteCache`, `Pacer`, `Link`, `Pipe` |

How it fits together:

- The server's two loops share a session. The send loop picks a packet under
  the lock, transmits with the lock released and records under the lock again;
  `SenderHistory` lets a receive step fall at every one of those points, and
  lets eviction fall only between packets, because it runs on the send loop.
- The channel keeps every datagram ever sent. A receive step takes any of them,
  which covers loss, duplication and reordering at once. Assets are a fixed
  function, each rpc_id stands for one asset_id, and bodies fit the 32-bit size
  (`server/internal/sender/assets.go:134` refuses larger ones).
- `Systems.Inv` ties the two sessions together; its consequences are the main
  theorems: received bytes are the asset's, a resolved request is the asset, a
  stream is a prefix of it, and no byte is ever sent un-granted. `SystemRest`
  has the other half: after any run, delivering everything until both ends have
  nothing to do leaves every transfer that was not told to fail served, unless
  its own reader is behind.
- Ledgers and histories (what was sent, resent, logged, answered) are kept by
  the proofs beside the state, not by the programs.
- Each class is proved against a function on values, `ensures State() == F(old(State()))`,
  and the properties are lemmas about those functions and about runs of them. What
  such a function means is then stated without it: by the datagrams a step writes,
  by the history of one RPC, transfer or sequence number, or by a reference of its own.

Where the code and its comments disagree the code is followed:

- A datagram refused as too large is said to be picked again at the smaller
  chunk size (`server/internal/sender/sender.go:567-569`), but a tail duplicate
  is not re-chunked. `SenderDrain` proves exactly which refused work shrinks;
  `SenderRefusal` has, for every body that is repeated and every limit its copy
  no longer fits, a run in which the copy is refused without end.
- What is left under a chunk is said to be flushed when a transfer completes or
  fails (`client/src/transport.ts:930-931`), but `finish` flushes only without
  an error (`client/src/transport.ts:955`): a failed stream errors with up to a
  chunk of contiguous bytes never handed over.

Times on the client are real numbers, on the server whole nanoseconds; both
come from outside, as do the grant budget, reordering windows, repair delays,
random draws and whether a reader has room. Numbers are unbounded integers; the
places where the programs narrow them are modelled (sequence numbers modulo
2^32, the ring modulo 65536, wire widths) or shown not to matter.

## Model

| member | source | states |
|---|---|---|
| `Systems.ReceivedIsGenuine` | client/src/transport.ts:537-606 | in every run of client, server and a channel that loses, repeats and reorders, every byte a transfer has marked received is its asset's byte at that offset |
| `Systems.ResolvedIsTheAsset` | client/src/transport.ts:950-973 | a request that resolves returns exactly the asset and its META fields; a stream that closes cleanly carried all of the asset; a stream handed over announces the asset's true size and fields |
| `Systems.StreamedIsPrefix` | client/src/transport.ts:921-941 | what a reader has been given is always a prefix of the asset, also after the transfer has ended or failed |
| `Systems.NothingUngranted` | server/internal/sender/sender.go:535-551 | goal G2 end to end: the un-granted byte counter stays 0, no server grant passes the highest grant the client ever wrote for that id, and a client's frontier and received count never pass its own granted offset |
| `Systems.NamedNumbersAreAnswered` | server/internal/sender/sender.go:267-276 | whatever RESEND_SEQ a client of a run has written, the server answers every number in it that its ring still holds, and the first time queues again the granted and sent bytes a live RPC's number carried: the 1024-number cap never cuts it short |
| `SystemRests.NothingLeftUndone` | client/src/transport.ts:537-638 | after any run, however lossy: once steps without an eviction have delivered every REQ and GRANT ever written and everything ever sent back, with the server idle and nothing to grant under a positive budget, each transfer still live waits for its own reader and has all it was granted |
| `SystemRests.EveryCallerIsServed` | client/src/transport.ts:950-973 | in that setting a transfer that is not told to fail on the way (its own ERROR, a cancel, an abort, a tick out of tries) is at rest with its reader behind, or its caller has been given exactly the asset |
| `SystemFlows.GrantingKeepsUp` | client/src/transport.ts:616-638 | in every run of both ends each step that takes a datagram, ends, cancels or resumes a transfer, or grants, leaves less than one worthwhile grant free while anyone waits, and something in flight unless what is reserved takes all the budget |
| `SystemWires.EverythingDecodes` | server/internal/sender/sender.go:553-563 | in every run of both ends, with valid META fields and requests whose own REQ can be encoded, all that either end sends is well formed and decodes to what was meant, with nothing assumed of what arrives |
| `Systems.StepKeeps` | client/src/transport.ts:514-535 | one step of either end, with any datagram the other ever sent, keeps the invariant that ties the two sessions together |
| `SenderHistory.GoalG2` | server/internal/sender/sender.go:535-551 | over every interleaving of receive steps with pick, the grant check, sending and eviction: the counter is 0, and every grant, every checked packet and every datagram sent lies at or below what the client granted, also after evict and a repeated REQ |
| `SenderHistory.NothingLostWhileUnlocked` | server/internal/sender/sender.go:588-642 | ERRORs leave in the order queued with none lost or repeated; for a live RPC the bytes ever queued to resend equal those resent plus those still queued; the offsets sent are exactly [0, next); packet0Sent <= metaSent <= packet0Req |
| `SenderHistory.RingMatchesLog` | server/internal/sender/sender.go:292-319 | numbers are consecutive from 0 and none is used by a refused datagram; the ring finds number n exactly when it is among the last 65536 sent and then holds what n carried; no number is requeued twice in a run |
| `SenderHistory.ResendSeqReachesAll` | server/internal/sender/sender.go:267-319 | a RESEND_SEQ of at most 1024 numbers marks each number in the ring as answered and queues again every byte, granted and sent, that a live RPC's number carried and that was not answered before |
| `SenderHistory.EveryRun` | server/internal/sender/sender.go:359-420 | every reachable state of the two loops satisfies the whole invariant, and every datagram sent tells the truth about its asset |
| `SenderTolds.EverythingTold` | server/internal/sender/sender.go:588-642 | in every reachable state each byte, META and packet 0 that a live RPC counts as sent is in a datagram that left |
| `SenderTolds.RecvHears` | server/internal/sender/sender.go:211-265 | a REQ or GRANT received leaves its RPC live with at least that grant, as far as the asset goes, or an ERROR for it queued |
| `SenderTolds.StepHolds` | server/internal/sender/sender.go:359-420 | only eviction forgets: every other step of either loop keeps each RPC with its grant and requests, each reply and each datagram |
| `SenderIdles.SweepDropsTheIdle` | server/internal/sender/sender.go:686-696 | in every run a sweep drops a live RPC if and only if the last packet about it (its REQ, GRANT, RESEND, or a RESEND_SEQ first answered with its bytes) came before the cutoff |
| `SenderIdles.DroppedMeansIdle` | server/internal/sender/sender.go:686-696 | with a clock that does not go back: if and only if no packet about it, while it lived, came from the cutoff on |
| `SenderIdles.OnlySweepsDrop` | server/internal/sender/sender.go:686-696 | no other step drops an RPC |
| `SenderReplies.ErrorsAreOwed` | server/internal/sender/sender.go:211-258 | in every run the ERRORs sent, then those pending, are exactly those the packets received earned, code by code and in order |
| `SenderReplies.NumberedOnceOffered` | server/internal/sender/sender.go:260-265 | numbers are in use if and only if a HELLO offered them to a server that may use them |
| `SenderReplies.PickNumbers` | server/internal/sender/sender.go:553-563 | a DATA picked while numbers are in use and not used up leaves under the next one; otherwise it leaves plain |
| `SenderReplies.OtherwiseIgnored` | server/internal/sender/sender.go:267-290 | what only a server sends, and a RESEND_SEQ before numbers are in use, change nothing |
| `SenderServes.EveryReqIsAnswered` | server/internal/sender/sender.go:231-235 | in every run, without eviction, each REQ, the first and each repeat, has been answered with a META and after it a packet 0 once the send loop has caught up |
| `SenderServes.EveryResendIsAnswered` | server/internal/sender/sender.go:246-258 | so has each RESEND: every byte it named, of what was sent by then, has left again since |
| `SenderServes.EveryNumberIsAnswered` | server/internal/sender/sender.go:292-319 | and the first RESEND_SEQ for a number: what it carried of a live RPC has left again since |
| `SenderWire.EverythingSentDecodes` | server/internal/sender/sender.go:553-563 | fed decoded datagrams, with assets whose META fields are valid, the server never meets a packet it cannot encode, and all it sends decodes to what it meant |
| `SenderRuns.HandleKeeps` | server/internal/sender/sender.go:211-290 | each client packet keeps grants within size and ceiling, resend spans inside what was sent, the ring in step with the log, and the replies accounted for |
| `SenderRuns.HandleGrows` | server/internal/sender/sender.go:211-328 | a receive step only raises grants, extends queues at the back (or the last span) and counts requests: it touches nothing the send loop owns |
| `SenderRuns.WorkStays` | server/internal/sender/sender.go:292-328 | a packet chosen before the lock was released is still right to record after any receive step, even one that extends the very span being sent |
| `SenderRuns.PickWorks` | server/internal/sender/sender.go:447-487 | what pick returns lies inside the grant, carries the asset's own bytes, and matches the head of the queue it came from |
| `SenderPicks.PickOrder` | server/internal/sender/sender.go:443-465 | what is picked waits, nothing of an earlier kind does (ERRORs, META, packet 0, resends, new data, copies), and no RPC waiting for the same kind has fewer bytes unsent |
| `SenderPicks.PickFills` | server/internal/sender/sender.go:466-497 | a picked DATA starts where its bytes do, fits the path's datagram (or carries one byte), and stops short of their end only if the datagram is full |
| `SenderPicks.OnlyBulkIsHeld` | server/internal/sender/sender.go:484-486 | only new data of an RPC with more than a queue of full datagrams unsent may be held back |
| `SenderPicks.UngrantedCounts` | server/internal/sender/sender.go:538-551 | the un-granted counter adds exactly the bytes of a DATA that the grant does not cover |
| `SenderCopies.SmallEndsLeaveTwice` | server/internal/sender/sender.go:624-632 | in every run the last packet of a response is queued again if and only if it is small enough and all sent, and at idle it has left twice, the copy the same as the original |
| `SenderRuns.NothingUngranted` | server/internal/sender/sender.go:535-551 | the check made as DATA leaves finds no byte past the grant |
| `SenderRuns.RecordKeeps` | server/internal/sender/sender.go:588-642 | recording a sent packet keeps the invariant: what was sent, resent and logged stays exactly accounted for |
| `SenderRuns.RingLookup` | server/internal/sender/sender.go:292-303 | a slot answers for number n exactly when nextSeq - 65536 <= n < nextSeq, and says what n carried and whether it was answered |
| `SenderDrain.SendsAreBounded` | server/internal/sender/sender.go:359-420 | with no new client packets and every send succeeding, a run of sends is no longer than a bound computed from the state, and keeps the invariant |
| `SenderDrain.ComesToRest` | server/internal/sender/sender.go:359-420 | a run of sends with no new client packets is bounded, and either some packet can still be picked or it has come to rest: replies out, every RPC it began with settled with its grant and requests intact, each granted byte not sent before carried by one of the datagrams |
| `SenderDrain.SendFalls` | server/internal/sender/sender.go:588-632 | each successful send brings that bound down by at least one, tail duplicates included |
| `SenderDrain.IdleMeansSettled` | server/internal/sender/sender.go:513-527 | pick finds nothing exactly when every reply is out and every RPC has sent each granted byte, answered its latest REQ with META and packet 0, and holds no resend or tail duplicate |
| `SenderDrain.PickFitsChunk` | server/internal/sender/sender.go:447-487 | a chosen DATA fits the current chunk if and only if it is not a tail duplicate that was cut when datagrams were larger: those are not re-chunked |
| `SenderDrain.RefusedComesBack` | server/internal/sender/sender.go:566-576 | work refused as too large is picked again for the same RPC and kind; new data, resends and packet 0 come back within the smaller chunk, a tail duplicate comes back unchanged |
| `SenderDrain.RefusedCopyRepeats` | server/internal/sender/sender.go:475-477 | a tail duplicate refused once is refused and picked again for ever at that limit, against the comment that the same work is picked at the smaller chunk size |
| `SenderRefusals.CopyBecomesDue` | server/internal/sender/sender.go:624-632 | for every body that fits one datagram and is small enough to repeat, a run of one REQ, its META and the body sent whole ends with the copy due and nothing else to send |
| `SenderRefusals.RefusedForEver` | server/internal/sender/sender.go:566-576 | for every such body, every limit at which the copy no longer fits and every n, a run in which the copy has been picked, offered and refused n times and is still the only thing picked, at its old size |
| `SenderSessions.SenderSession.Receive` | server/internal/sender/sender.go:211-290 | the receive loop's step on the session's own fields is the one specified for every kind of packet; what that step means is stated by the rows of SenderTolds, SenderReplies, SenderServes and SenderIdles |
| `SenderSessions.SenderSession.ResendNumber` | server/internal/sender/sender.go:292-319 | one number of a RESEND_SEQ: marked answered once, its bytes requeued, clipped and merged |
| `SenderSessions.SenderSession.Pick` | server/internal/sender/sender.go:447-487 | one pass over the RPCs in any order finds one than which nothing due is more urgent, and nothing only if nothing is due |
| `SenderSessions.SenderSession.CheckGrant` | server/internal/sender/sender.go:538-551 | how far a DATA about to leave runs past the grant at that moment |
| `SenderSessions.SenderSession.Finish` | server/internal/sender/sender.go:565-642 | sent and dropped packets are recorded alike, a DATA refused as too large only shrinks later ones, anything else ends the session |
| `SenderSessions.SenderSession.SendUntilIdle` | server/internal/sender/sender.go:359-420 | the send loop left alone makes a run of picks and sends from the state it found, returns exactly the datagrams of that run, and stops within the bound, idle, with every RPC, grant and request still there and each granted byte not sent before in one of those datagrams |
| `SenderSessions.SenderSession.EvictIdle` | server/internal/sender/sender.go:686-696 | exactly the RPCs nothing has referred to for the idle timeout are dropped |
| `ClientHistory.AnsweredOnce` | client/src/transport.ts:950-973 | in every run a caller is answered at most once, exactly once by the time its transfer is gone, and a stream then has exactly one end; a clean answer or end means META and every byte |
| `ClientHistory.StreamIsPrefix` | client/src/transport.ts:921-941 | a reader has been given exactly bytes [0, emitted) and emitted never passes the gap-free prefix |
| `ClientHistory.RecoveryIsBounded` | client/src/transport.ts:723-747 | the stall timer's recovery runs at most maxRecoveries * (size + 2) + 1 times for one transfer, whatever arrives |
| `ClientHistory.GrantsAreBooked` | client/src/transport.ts:616-638 | a transfer's ceiling is the highest grant written for it, and the scheduler's size, received and granted agree with the transfer |
| `ClientRepairs.NoStorms` | client/src/transport.ts:696-767 | in every run of the client whose clock does not go back, the RESENDs written are exactly those of the claims made by the three callers, and a byte is RESENT again only once every earlier RESEND of it is past its deadline |
| `ClientRepairs.StepSpaced` | client/src/transport.ts:674-769 | each step of the session keeps every transfer's claims spaced and what they still wait for pending |
| `ClientAwaits.NothingForgotten` | client/src/transport.ts:674-769 | in every run whose clock does not go back, a tick leaves each byte of each range it claims (lost, the tail's last packet, or for recovery) in a RESEND that was written and is new or not yet due |
| `ClientAwaits.StallIsAnswered` | client/src/transport.ts:723-769 | in every such run a stall with tries left ends with the byte that holds the prefix up, and the last granted byte if the tail is out, each in such a RESEND |
| `ClientNumbers.AskedAtMostThrice` | client/src/transport.ts:812-831 | in every run of the client whose clock does not go back, no sequence number occurs in more than SEQ_RESEND_TRIES of the RESEND_SEQs written, and one still within its reordering window in none |
| `ClientSeqs.TickAsksForTheLost` | client/src/transport.ts:812-831 | in every run whose clock does not go back a tick of session-wide detection writes RESEND_SEQs for exactly the numbers that are due: declared lost now, or asked for two repair delays ago, fewer than three times and not known to be repaired |
| `ClientSeqs.NumberArrives` | client/src/transport.ts:537-552 | in every such run an arriving number counts whether or not its transfer is live, and the server is known to number its DATA |
| `ClientAwaits.QuietTailIsProbed` | client/src/transport.ts:692-710 | in every such run a tick that finds a quiet tail leaves its last granted byte in a RESEND that is new or not yet due, and probes once until something arrives |
| `ClientRestraints.TickAsksOnlyWithReason` | client/src/transport.ts:680-769 | in every state of a run each byte in each RESEND a tick writes was lost by early detection's rule, is in the quiet tail's last packet, or is among what a stall's recovery asks for |
| `ClientHistory.StepKeeps` | client/src/transport.ts:537-606 | every step of the session, in any order and at any time, keeps the invariant, and leaves nothing that could have been handed over or finished |
| `ClientHistory.AlwaysTakes` | client/src/transport.ts:514-535 | a client that satisfies the invariant can take any datagram at any time: the step is never blocked |
| `ClientHistory.StepTrue` | client/src/transport.ts:537-606 | a step that takes a truthful datagram, or none, keeps every held byte and header true and below the ceiling |
| `ClientTakens.TookTaken` | client/src/transport.ts:537-606 | a truthful datagram about a transfer that began leaves it over, or holding what the datagram carried, and takes nothing from any transfer |
| `ClientAnswers.StepSpares` | client/src/transport.ts:950-973 | a step that does not tell a transfer to fail leaves it live, or ends it with its request resolved or its stream closed cleanly |
| `ClientWire.EverythingWrittenDecodes` | client/src/transport.ts:504-512 | fed decoded datagrams, with requests whose own REQ can be encoded, the client writes only packets its encoder accepts, and the server reads each of them back as meant: no range is empty, no number leaves its width |
| `ClientTruth.GenuineIsStored` | client/src/transport.ts:571-584 | a truthful DATA is never refused: total_size does not change and the payload fits |
| `ClientSteps.RecoverGapsFit` | client/src/transport.ts:753-767 | the stall timer's gaps (at most 16 real ones, then the first and last packet of the tail) are sorted, disjoint, inside the asset and still missing |
| `ClientSteps.ProbeGapFits` | client/src/transport.ts:696-707 | the tail probe's range is inside the asset and still missing |
| `ClientSteps.DetectGapsFit` | client/src/transport.ts:786-790 | the gaps early detection declares lost are sorted, disjoint, inside the asset and still missing |
| `ClientSteps.RecoveryReachesEnds` | client/src/transport.ts:753-767 | recovery always asks for the first missing granted byte, the one that holds the prefix up, and for the last granted byte if the tail is out |
| `ClientSteps.RecoverKeeps` | client/src/transport.ts:723-769 | recovery keeps the invariant, whichever of its branches it takes |
| `ClientSteps.RecoverOutcome` | client/src/transport.ts:723-769 | an attempt within the limit counts one more, raises nobody's ceiling and ends nothing; the one after the last ends the transfer with a failure |
| `ClientAsks.StallRepeats` | client/src/transport.ts:723-750 | a tick that finds a transfer with something outstanding past its timeout, with tries left, writes its REQ again if the size or META is missing and its grant again if that was raised; one more attempt is counted and a new timeout begins |
| `ClientAsks.LastStallFails` | client/src/transport.ts:723-727 | without tries left the transfer is over and its caller is told it failed |
| `ClientAsks.NoStallNoRepeat` | client/src/transport.ts:684-690 | before the timeout, or with nothing outstanding, neither is written, and what only waits cannot time out from its past |
| `ClientAsks.BeginAsks` | client/src/transport.ts:408-435 | beginning a request writes a HELLO if one is to be offered and then its REQ with the grant and asset asked for, and leaves it live in its class with nothing held |
| `ClientAsks.SessionOffers` | client/src/transport.ts:465-470 | a new session writes its first HELLO if it may offer numbers, and nothing else |
| `ClientReaders.PullResumes` | client/src/transport.ts:444-450 | after the pull of a paused stream neither the stream nor its place in the schedule is paused, nothing else but grants has changed, and with nothing outstanding and budget to spare someone who waits is granted |
| `ClientReaders.PullElseNothing` | client/src/transport.ts:444-450 | a pull of a stream that is not paused changes nothing |
| `ClientReaders.CancelDrops` | client/src/transport.ts:451-456 | a cancelled transfer is off the books, its end is told, and the others keep all they had |
| `ClientArrives.DataArrives` | client/src/transport.ts:569-606 | a DATA that agrees with what is known: its transfer is over exactly if META is known and the last byte has come; otherwise it holds the bytes too, made progress exactly if some were new, has handed its reader all but what is kept back, and is paused if the reader is behind |
| `ClientArrives.BadNewsFails` | client/src/transport.ts:574-582 | a DATA that contradicts the size or runs past it, or an ERROR, ends its transfer and the caller is told |
| `ClientArrives.MetaArrives` | client/src/transport.ts:559-568 | the first META is kept and is progress; a later one changes nothing but grants |
| `ClientArrives.FirstDataSchedules` | client/src/transport.ts:570-573 | the first DATA schedules its transfer, in its request's class and after all scheduled before |
| `ClientArrives.LargestIsRemembered` | client/src/transport.ts:585 | the largest payload seen is remembered, whatever becomes of its transfer |
| `ClientSteps.DataKeeps` | client/src/transport.ts:571-605 | a DATA with any contents keeps the invariant, through sizing, storing, handing over, flushing, finishing or failing |
| `ClientRuns.PumpKeeps` | client/src/transport.ts:616-638 | granting under any budget keeps scheduler, ceilings and GRANTs written in step, for every transfer at once |
| `ClientRuns.FlushKeeps` | client/src/transport.ts:921-941 | a flush keeps the chunks a gap-free prefix and the scheduler's pause in step with the reader |
| `ClientRuns.FlushedOk` | client/src/transport.ts:921-941 | a flush holds back less than one chunk of contiguous bytes, and nothing before the first bytes are out or once the body is complete |
| `ClientRuns.EndsOnce` | client/src/transport.ts:950-973 | the last words about a transfer complete its events to exactly one answer, and for a stream exactly one end |
| `Http4Clients.Http4Client.OnDatagram` | client/src/transport.ts:537-606 | one datagram's effect on the session's fields, from counting its number to the grants its bytes free |
| `Http4Clients.Http4Client.FinishOne` | client/src/transport.ts:950-973 | a transfer leaves the Map and the scheduler, its stream ends, its caller is answered, and the others are granted what it frees |
| `Http4Clients.Http4Client.PumpGrants` | client/src/transport.ts:616-638 | the sum of initial grants is reserved, the scheduler decides, and each decision is sent and raises its transfer's ceiling |
| `Http4Clients.Http4Client.RecoverOne` | client/src/transport.ts:723-769 | the stall timer's recovery on the session's fields is the one specified; what it writes is stated by ClientAsks.StallRepeats and ClientAwaits.StallIsAnswered |
| `Http4Clients.Http4Client.Tick` | client/src/transport.ts:674-721 | a tick is session-wide detection, exactly if the server numbers its DATA, then the turn of each transfer there was, once, in some order, and nothing else; it keeps the invariant |
| `Http4Clients.Http4Client.FailAll` | client/src/transport.ts:975-979 | when the session fails each transfer there was is finished with an error, once, nothing else is done, and none is left |
| `ClientTransfers.LiveTransfer.Store` | client/src/transport.ts:578-600 | one transfer as an object: a payload is stored in its buffer and, if any byte is new, its attempts start over |
| `ClientTransfers.LiveTransfer.FlushStream` | client/src/transport.ts:921-941 | the newly contiguous bytes become one chunk of the stream, and a reader behind pauses the transfer |
| `ClientTransfers.LiveTransfer.ClaimRanges` | client/src/transport.ts:704-707 | a claim on the transfer's own repair tracker, whose pending RESENDs stay sorted and inside its asset |
| `ClientTransfers.LiveTransfer.GapsToRecover` | client/src/transport.ts:758-766 | the stall timer's gaps, computed from the buffer's own range list |
| `Reassemblies.Reassembly.Add` | client/src/reassembly.ts:45-69 | bytes are stored, the set of received offsets grows by exactly the payload's range, and the count returned is that of the offsets that were new; a payload that does not fit changes nothing |
| `Reassemblies.Reassembly.MissingBelow` | client/src/reassembly.ts:72-82 | the list of maximal gaps of the received set below any limit |
| `Reassemblies.Reassembly.ContiguousEnd` | client/src/reassembly.ts:31-34 | the end of the longest gap-free prefix of the received set |
| `Reassemblies.Reassembly.FrontierEnd` | client/src/reassembly.ts:37-40 | one past the highest offset received |
| `Reassemblies.MergedAdds` | client/src/reassembly.ts:45-69 | merging a range into a sorted, disjoint, non-adjacent list gives such a list for the union |
| `Reassemblies.MergeCounts` | client/src/reassembly.ts:45-69 | the overlap found while merging is exactly the number of offsets already received |
| `Reassemblies.CompleteHasAll` | client/src/reassembly.ts:26-34 | received == size exactly when every offset has arrived, which is when the prefix reaches the end |
| `Intervals.GapsAreMissing` | client/src/reassembly.ts:72-82 | the gaps are sorted, maximal and cover exactly the offsets below the limit that have not arrived |
| `Intervals.CanonicalUnique` | client/src/reassembly.ts:9-20 | a set of offsets has only one sorted list of disjoint, non-adjacent ranges |
| `Repairs.NoRepeatStorms` | client/src/reassembly.ts:133-162 | over any history of claims for a transfer, no byte is RESENT while an earlier RESEND that covers it is before its deadline |
| `Repairs.NothingForgotten` | client/src/reassembly.ts:133-162 | every byte of a claimed gap is in the new RESENDs or under one that is still live |
| `RepairLosses.LostMeansWaited` | client/src/reassembly.ts:116-127 | over any looks for gaps, one is declared lost if and only if it was first found at least the reordering window ago and by every look since |
| `RepairLosses.SuspectsLieBelow` | client/src/transport.ts:786-790 | which missing bytes are suspects: those below the frontier, and while more is granted past it, by more than the reordering allowance |
| `RepairLosses.RecoveryTakesTheFirstGaps` | client/src/transport.ts:756 | recovery asks for every missing granted byte below the frontier, up to the end of the sixteenth gap |
| `RepairLosses.RecoveryProbesTheTail` | client/src/transport.ts:757-763 | past the frontier recovery asks for exactly the first and the last packet of what is granted, in at most eighteen ranges with the gaps |
| `RepairLosses.ProbeTakesTheLastPacket` | client/src/transport.ts:700-701 | the probe is for the last granted bytes one packet carries, none below the frontier |
| `Repairs.ClaimEffect` | client/src/reassembly.ts:133-162 | what claim returns is exactly the gaps less what live RESENDs cover, the pending list stays sorted and disjoint, and suspects stay |
| `Repairs.FirstDecides` | client/src/reassembly.ts:138-144 | one sweep over both sorted lists decides liveness: only the first gap past a RESEND's start matters |
| `Repairs.RepairTracker.Detect` | client/src/reassembly.ts:116-127 | the gaps that stayed missing for the whole window are claimed, and suspects are remembered by where they start |
| `Repairs.RepairTracker.Claim` | client/src/reassembly.ts:133-162 | the cursor loops compute the specified RESENDs and pending list |
| `SeqTracking.FromTheStart` | client/src/reassembly.ts:227-305 | in every run missing, claimed and settled stay disjoint, at or below the highest number and clear of arrived ones; detect names a number at most once and no number is asked for more than maxTries times |
| `SeqTracking.RepeatsKeep` | client/src/reassembly.ts:284-305 | each repeats call keeps that, and leaves the settled set within its size and lifetime bounds |
| `SeqFates.EachNumberOnItsOwn` | client/src/reassembly.ts:227-305 | in every run the three maps hold exactly what the history of arrivals and calls makes of each number on its own: a gap from the jump over it, lost by the later numbers and time since, asked for again by its own tries, until it arrives, is repaired or given up |
| `SeqFates.ArrivalIs` | client/src/reassembly.ts:227-251 | what is said of an arrival, from the number's own history: new, reordered, spurious or a duplicate |
| `SeqFates.TrimIsTight` | client/src/reassembly.ts:299-303 | of the numbers given up only the oldest are forgotten, and only past 8192 of them or 30 seconds |
| `SeqFates.GivenUpIsKept` | client/src/reassembly.ts:288-303 | a number asked for often enough, or repaired, joins the end of those kept to spot a late original |
| `SeqTracking.RangesCover` | client/src/reassembly.ts:308-317 | the ranges are sorted, disjoint, cover exactly the numbers given, are at most maxRange wide, and touch only where one is full |
| `SeqTracking.SeqTracker.Arrives` | client/src/reassembly.ts:227-251 | a number's arrival on the three maps: new with its gap filled, reordered, spurious or a duplicate |
| `SeqTracking.SeqTracker.Detects` | client/src/reassembly.ts:258-275 | lost numbers leave missing, are asked for once, and come back as ranges |
| `SeqTracking.SeqTracker.Repeats` | client/src/reassembly.ts:284-305 | waiting, given up, repaired and repeated numbers are told apart, and the oldest settled ones dropped |
| `Scheduling.GrantsOnlyRaise` | client/src/scheduler.ts:118-175 | a grants call only raises grants, never past the size and never for a paused RPC, and changes nothing else |
| `Scheduling.GrantsKeepBudget` | client/src/scheduler.ts:118-175 | reserved plus outstanding stays within the budget, or within what it already was |
| `Scheduling.StrictSrpt` | client/src/scheduler.ts:131-160 | an RPC is granted only if every unpaused one ahead of it by class, bytes left and arrival is fully granted |
| `Scheduling.NotLimitedIsServed` | client/src/scheduler.ts:136-174 | if the call says the budget was not the limit, every unpaused RPC is fully granted (for minIncrement >= 1) |
| `Scheduling.NoDeadlock` | client/src/scheduler.ts:149-156 | with nothing outstanding and budget above reserved, some waiting RPC is granted whatever minIncrement is |
| `Scheduling.NotStuck` | client/src/scheduler.ts:118-175 | while a byte is missing, a grants call under any positive budget leaves something that can arrive |
| `Scheduling.EveryTransferCompletes` | client/src/scheduler.ts:118-175 | rounds of granting and delivering take at most one per missing byte, for any minIncrement and any positive budgets, and stop only with every transfer complete |
| `Scheduling.SrptScheduler.Grants` | client/src/scheduler.ts:118-175 | the loop over the sorted candidates makes exactly the specified decisions and sets budgetLimited exactly when specified |
| `Scheduling.PauseHolds` | client/src/scheduler.ts:88-99 | while an RPC is paused a grants call leaves it as it is, its bytes still count as outstanding and the others' entries are untouched; resuming gives back exactly the schedule there was |
| `SchedulerUses.FirstIsServedFirst` | client/src/scheduler.ts:131-160 | written out: an RPC is granted only when every unpaused one of a more urgent class, or of its class with fewer bytes to come, or as many and scheduled earlier, is fully granted; its decision carries its place among those served |
| `SchedulerUses.BudgetIsUsed` | client/src/scheduler.ts:118-160 | a grants call holds nothing back: while anyone still waits, less than one worthwhile grant (the configured one, at most a quarter of the budget) is free |
| `SchedulerUses.NeverIdleWhileWaited` | client/src/scheduler.ts:149-156 | a grants call never leaves nothing in flight while someone waits, unless what is reserved takes all the budget |
| `SchedulerUses.LimitedMeansShort` | client/src/scheduler.ts:136-174 | budgetLimited is set if and only if someone waits and either less than a worthwhile grant is free, or what is free is less than all that is waited for |
| `Wire.Bijection` | server/internal/wire/wire.go:202-441 | a datagram decodes to p exactly when p is well formed and encodes to it |
| `Wire.DecodeEncode` | server/internal/wire/wire.go:202-441 | every well-formed packet survives encoding and decoding, the META field loop included |
| `Wire.EncodeDecode` | server/internal/wire/wire.go:202-441 | whatever decodes is well formed and encodes back to the same bytes |
| `WireLayouts.DecodesAsLaid` | docs/wire-format.md:34-240 | a datagram decodes to a packet if and only if it is sensible and laid out as the format's tables say, byte by byte, most significant byte first |
| `WireLayouts.MetaRules` | server/internal/wire/wire.go:340-358 | META fields are accepted if and only if their names are among the four known, none twice, and their values are printable with no space at either end |
| `WireUtf8s.Utf8IsRight` | server/internal/wire/wire.go:220-222 | an asset_id is accepted if and only if it is the encoding of Unicode scalar values |
| `WireGo.DecodeBytes` | server/internal/wire/wire.go:202-329 | the server's decoder accepts and reads exactly what the format says |
| `WireGo.Append` | server/internal/wire/wire.go:378-441 | the server's encoder appends the packet's bytes to any buffer, and refuses exactly what would not decode |
| `WireGo.Check` | server/internal/wire/wire.go:340-358 | the nested loops accept exactly the META rules: known names, none twice, valid values |
| `WireGo.Marshal` | server/internal/wire/wire.go:444-446 | what the server sends decodes to the packet, and a packet is refused exactly if no datagram decodes to it |
| `WireTs.DecodeBytes` | client/src/wire.ts:137-221 | the client's decoder, with its cursor, accepts and reads exactly the same datagrams as the server's |
| `WireTs.EncodePacket` | client/src/wire.ts:224-312 | the client's encoder fills a buffer of the right size with exactly the packet's bytes, and refuses everything not well formed |
| `WireTs.PatternIsValid` | client/src/wire.ts:341-344 | the client's regular expression accepts the same META values as the server's loop |
| `WireTs.CheckMeta` | client/src/wire.ts:327-339 | the loop with its set of names seen accepts exactly the META rules |
| `ByteCaches.ByteCache.Get` | server/internal/bytecache/bytecache.go:113-135 | the map and the list together act as the recency list: a live value moves to the front, an expired one is dropped and not returned |
| `ByteCaches.ByteCache.Put` | server/internal/bytecache/bytecache.go:139-177 | a put acts as specified on the recency list and keeps map, list and byte count in agreement and within capacity; what it drops is stated by GetAfterPut |
| `ByteCaches.GetAfterPut` | server/internal/bytecache/bytecache.go:113-177 | a get after a put: a put that does not store changes nothing; its own key gives the new value unless expired; another key gives what it gave if all fit together, or if its entry has not expired and it, the unexpired ones more recent and the new one fit; otherwise nothing |
| `ByteCaches.PutWithRoomDropsNothing` | server/internal/bytecache/bytecache.go:156-177 | when the entries under other keys and the new one fit together, a put drops none of them: every other key gives at every time what it gave, and they keep their order |
| `ByteCaches.GetMovesToFront` | server/internal/bytecache/bytecache.go:113-135 | a get moves what it finds to the front, drops what has expired, and keeps the order of the others |
| `ByteCaches.JustGotIsLastToGo` | server/internal/bytecache/bytecache.go:113-177 | what was just got survives any put beside which it alone fits, unless it has expired by then |
| `ByteCaches.LiveConcat` | server/internal/bytecache/bytecache.go:186-195 | the sweep of the expired keeps the recency order of the rest |
| `ByteCaches.EvictionKeepsLongestPrefix` | server/internal/bytecache/bytecache.go:156-175 | a put that must evict leaves exactly the longest recency prefix of the unexpired other entries that fits beside the new one |
| `ByteCaches.OperationsKeep` | server/internal/bytecache/bytecache.go:113-177 | one entry per key and total size within capacity after every operation |
| `ByteCaches.GetIsFresh` | server/internal/bytecache/bytecache.go:113-135 | a get never returns an expired value, and finds nothing only if every entry for the key is expired or absent |
| `Pacers.RateBound` | server/internal/sender/pacer.go:124-190 | n+1 unblocked handovers ending in a bulk one that wait let through span at least (n - target) slots of interval + interval/8 |
| `Pacers.SlowestStands` | server/internal/sender/pacer.go:139-202 | in every run no sample taken since the interval in force was set is slower than it |
| `Pacers.HeldUntilItsSlot` | server/internal/sender/pacer.go:124-136 | when a bulk datagram is held, and for how long: until its slot, at most 50 ms |
| `Pacers.OnPaceIsNeverHeld` | server/internal/sender/pacer.go:181-192 | a sender whose handovers are at least a slot apart is never held |
| `Pacers.CreditIsTarget` | server/internal/sender/pacer.go:178-192 | after a pause exactly `target` datagrams go at once unheld, and the next bulk one waits |
| `Pacers.BlockedTwiceBrakes` | server/internal/sender/pacer.go:139-155 | from the second blocked handover in a row the next slot is when all but `target` of a full queue has left |
| `Pacers.IntervalIsMeasured` | server/internal/sender/pacer.go:156-168 | over any handovers between two blocked ones at least 200 ms and 16 handovers apart: if a tenth blocked, the time per handover is the new interval when slower, or when the old one is over 5 s old; otherwise the interval stands; a new measurement begins |
| `Pacers.BlockedBegins` | server/internal/sender/pacer.go:156-178 | after idling the first blocked handover begins a measurement |
| `Pacers.Pacer.Sent` | server/internal/sender/pacer.go:139-168 | a handover books its slot, brakes on a confirmed full queue and completes samples as specified |
| `Links.QueueBound` | server/internal/impair/link.go:86-100 | an admitted packet on a capped link with a queue limit departs within (QueueBytes + 1) * 10^9 / rate, integer rounding included |
| `Links.CapHolds` | server/internal/impair/link.go:86-100 | one admitted packet books the transmitter for its size at the rate, rounded down by less than a nanosecond |
| `Links.CapOverRuns` | server/internal/impair/link.go:86-100 | over any run of admissions from a link whose transmitter is booked, the bytes admitted are at most the rate times the time booked, plus one nanosecond's worth a packet |
| `Links.WhatIsDropped` | server/internal/impair/link.go:70-97 | exactly when a packet is lost or dropped at the queue, in whole numbers, and when the burst chain moves |
| `Links.WhenItArrives` | server/internal/impair/link.go:86-112 | an admitted packet leaves after the backlog and its own size at the rate, and arrives a delay later within the jitter, without reordering not before what arrives last |
| `Links.FifoDelivery` | server/internal/impair/link.go:102-111 | without reordering a packet is never delivered before one admitted earlier; a dropped packet changes no time |
| `Links.ImpairedLink.AdmitPacket` | server/internal/impair/link.go:70-112 | the link's fields and verdict change as specified for any random draws |
| `Pipes.NothingLostOrReordered` | server/internal/impair/proxy.go:208-276 | in every run in = forwarded + lost + queue-dropped + queued, forwarded and queued packets are exactly the admitted ones, and with reordering off they leave in arrival order |
| `Pipes.AdmittedIsWhatWasPushed` | server/internal/impair/proxy.go:208-229 | in every run the packets admitted are, in order, exactly the bytes of the pushes the link did not drop, each at the time it gave; pushes, losses and queue drops are counted once each |
| `Pipes.ForwardedIsWhatWasPushed` | server/internal/impair/proxy.go:235-249 | with reordering off the bytes forwarded are, in order, the first of the bytes pushed and not dropped |
| `Pipes.FirstIsNext` | server/internal/impair/proxy.go:282-290 | with reordering off the heap's head is the packet that arrived first |
| `Pipes.SomethingLeaves` | server/internal/impair/proxy.go:235-249 | in every run, while packets are queued exactly one is the head of the heap; it may leave exactly if its own time has come, and that is so exactly if the time of any queued packet has |
| `Pipes.ProxyPipe.RunOnce` | server/internal/impair/proxy.go:235-249 | one turn of the run loop forwards the head of the queue exactly if it is due |
| `Pipes.ProxyPipe.Push` | server/internal/impair/proxy.go:208-229 | a pushed packet is counted once and queued, lost or dropped as the link says; that its bytes are the ones forwarded is stated by AdmittedIsWhatWasPushed |

## Left out

- QUIC, WebTransport, sockets, goroutines, promises and timers: SendDatagram succeeds, refuses as too large, or fails; time is an input.
- Service Worker, page bridge, fetch fallback, configuration, benchmarks, HTTP serving and certificates: plumbing and library wrappers.
- RTT, RTO, budget, reordering-window and delay estimation (`client/src/budget.ts` and the estimators in `client/src/transport.ts`): every value they could give is allowed, so their accuracy is not claimed. Budgets and sizes are whole numbers.
- Metrics other than the un-granted byte counter, and log lines.
- Objects in maps: the server's rpc records and the client's Transfer records are values in their session's map, so aliasing between a record and the loops or handlers that hold it is not modelled; on the server a picked record is found again by its id, which is sound because eviction never falls between pick and record. `LiveTransfer` has one client transfer as an object with its own buffer.
- A stream's chunks are ranges of the reassembly buffer, as the source's views are; a reader that copies them late reads what the buffer then holds.
- The wire's 64-bit request counters and the cache's and link's 64-bit products are unbounded integers; their overflow is not modelled.
- TextDecoder's handling of a leading byte-order mark in an asset_id (`client/src/wire.ts:133`): an asset_id is bytes here.
- Stream callbacks out of turn: `pull` and `cancel` that reach a transfer already out of the Map, and the `pull` that `controller.enqueue` makes before it returns (`client/src/transport.ts:921-941`). In the model a reader pulls or cancels between steps, and a transfer that is live.
- SystemRests.NothingLeftUndone: says what holds once everything has been delivered and both ends have nothing to do; that a lossless schedule gets there is bounded for each end (`SenderDrain.ComesToRest`, `Scheduling.EveryTransferCompletes`), not for the two together.
- Rejecting a REQ longer than the datagram limit before anything is sent (`client/src/transport.ts:413-416`): such a transfer never starts.
- The container/list and container/heap structures: the cache's list and the pipe's heap are sequences, and the head of the heap is its least element.
- Random loss and jitter distributions: every draw is allowed.
- Which of two equally urgent RPCs pick returns: Go's map order is not fixed, and the model leaves it open too.
