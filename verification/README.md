# Verified models of uIP and the FOS kernel

This project models two parts of the repository and proves what they keep.

**The uIP TCP/IP stack.** `Tcp` gives the meaning of `uip_process` on values: one function per label and per state, over a
connection slot, a segment and whatever the application does in its callback (`Reply` ranges over everything it may do).
`TcpEngine` is the code itself, classes whose methods update the slots, the listen table and the globals in place, each
proved to do what its function in `Tcp` says. About those functions are proved: the discipline of every slot over all runs
(`TcpInvariants`), exact lifetimes under the timer (`TcpTimers`), the connection table and the port search (`TcpTable`), poll
requests (`TcpPolls`), and end-to-end safety over a channel that loses, duplicates and reorders: of two endpoints from the
handshake on (`TcpEndToEnd`, `TcpHandshake`) and of two hosts with whole connection tables (`TcpNetwork`), that from every
reachable state what is outstanding can still get through (`TcpProgress`) and every close can complete (`TcpClosing`), that
segments go between the ports and hosts a connection was opened for and reach exactly the slot at the other end
(`TcpAddressing`), how much may be on its way (`TcpFlow`) and which accepted connections can ever send (`TcpLimits`), what the
application is told and what is answered (`TcpNotices`), and the round-trip estimator (`TcpRtt`). `Wire` ties segments to bytes:
what is laid out in `uip_buf` passes the receive tests and is read back as the same segment. Around it: the checksum loop (`Checksum`), the checksum
fields of packets and their incremental updates (`Packet`), the forwarding decision of `uip-fw.c` with its time-exceeded message
(`Forward`) and its cache of forwarded packets (`ForwardCache`), byte-array sequence numbers (`SeqNum`) and the read side of protosockets (`Psock`).

**The FOS kernel.** `LinkedLists` is `kernel/list.c` on real nodes with self-looped tails, and one heap that holds every list
of the kernel. `Bitmap` is the two-level ready index with its 256-entry table. `KernelSpec` gives each kernel call as a
function on a state; `KernelHeap` is the calls themselves on objects with embedded links, each proved to
refine its function, including the `hardware_timer` loop that unlinks nodes under its own cursor. About the functions are
proved: the global invariant (`KernelInvariants`), its consequences for scheduling (`KernelScheduling`, `KernelSwitching`), what
ticks do inside the two calls that leave interrupts on (`KernelInterrupts`) and what follows while the caller is away
(`KernelResumption`), which call can change what (`KernelFrames`) and where it leaves the ready queues (`KernelQueues`), time
(`KernelTicks`, `TickRuns`), semaphores (`SemHistory`), message queues (`MsgQueues`) and immediate-ceiling mutexes (`Ceiling`).

**A printer and a parser.** `Digits` is `itoa` and `skip_atoi`.

A step of the kernel model is what runs with interrupts off. `sem_get` and `mutex_get` reach `schedule()` that way and are one
step. `os_delay`, `msg_get`, `sem_put`, `mutex_put` and `hardware_timer` turn interrupts on before it, so each is a step up to
that point and the scheduling point is a step of its own: a run may put ticks and calls of interrupt handlers between the two,
also while the running task is on no ready queue. `Inv` is what holds whenever interrupts are on. `Called` lists what the sources
rely on: handles name initialised objects, a task is created once, a timer or message is not queued already, a task calls while
it is ready, and blocking calls are made with the scheduler unlocked and not by the idle task.

In `TcpEndToEnd` an endpoint is a connection with the history of its stream. The channel is the set of all packets ever sent,
any of which may arrive at any time, and resets may come from anyone. `TcpNetwork` shows that a table step is, for the slot that
carries the connection, one such endpoint event or nothing, whatever the other slots do.

Where the code does not keep what is expected of it, lemmas say exactly when it does and give the input:
`KernelScheduling.KeptIffQueued` (a call that gives a task a priority without a ready queue, as `task_create` with 32 or more and
`task_prio_change` with 32 do, is exactly what breaks the invariant, and `UnqueuedTaskIsLost` says what becomes of the task),
`KernelInterrupts.PrioChangeInterrupted` (`task_prio_change` leaves interrupts on, and survives a tick between its list and index
operations if and only if the scheduler is locked; else schedule() follows a list head that is no task, exactly when nobody else
is ready or wakes up to the priority marked too early, or it switches away from the task, which then is on no list; where the
marks are right without the task, `InterruptedIsLost` shows it to be lost for good, and
`KernelResumption.HeadNeverFollowedIff` that everywhere else some run of the other tasks leads schedule() to a list head),
`KernelResumption.TaskCreateEndsWellIff` (`task_create` survives such a tick, whatever other tasks do before its caller goes on,
if and only if the scheduler is locked, or the caller is at least as urgent as the new task and either keeps the processor or
somebody is ready, or wakes, at the new priority; `FailingInput` is a run from boot to a state where it does not, and
`CallerGoesOnIff` says when the caller keeps the processor),
`TcpPolls.SilentCommitIff` with the run in `StaleLengthReached` (a poll request sends with the length of another connection's
packet, or with one `TcpNotices.LengthLeft` says was left without a packet), `Wire.DataDisplaced` (the application finds the data of a segment with TCP options only if the data repeats them),
`Packet.EchoReply` (answered from another address than the one asked for, the header passes only if the two sum alike),
`Digits.PrintThenParse` (the parser overflows 48 below the largest int). `Packet.UpdatedKeepsSum` is exact too, and
`Forward.FwForward` shows that the guard on the TTL keeps its failing case away from every forwarded packet.
`ForwardCache.NextForgetsIff` says when the entry replaced is not the oldest, as the comment in `uip-fw.c:290` has it, and
`TcpLimits.AcceptedCanSendIff` that a connection accepted without an MSS option in a slot never used before cannot send at all,
where section 4.2.2.6 of RFC 1122 asks for a default of 536. `TcpNotices.Responses` names the one case in which what is taken is
not acknowledged, data that comes with the acknowledgment of a FIN, and the one state in which an acknowledgment alone is answered
with another, so that two ends in TIME_WAIT answer each other for ever; `TcpNotices.UrgentIsNotAcknowledged` that of a segment
with urgent data not all is acknowledged. The comment in
`kernel/timer.c:100` says a woken sleeper goes to the head of its ready queue; the code puts it at the tail, and so does the model.

## Model

| member | source | states |
|---|---|---|
| Words.HtonsTwice | middleware/uip/uip/uip.c:313-324 | byte order conversion undoes itself, on either byte order |
| Checksum.Chksum | middleware/uip/uip/uip.c:279-308 | the loop with 16-bit wrap-around and carries found by comparison returns the one's-complement reduction of seed + exact word sum, odd last byte padded |
| Checksum.EndAroundCarry | middleware/uip/uip/uip.c:290-294 | one wrapped addition with its carry re-added keeps the reduction of every way the sum can be completed |
| Checksum.FoldMeaning | middleware/uip/uip/uip.c:306-307 | the reduction is the only 16-bit number congruent to the sum mod 65535 that is 0 exactly when the sum is 0 |
| Checksum.ChksumMeaning | middleware/uip/uip/uip.c:279-308 | the result is congruent to seed + true sum mod 65535 and is 0 only when the seed and every byte are 0 |
| Checksum.WordSumConcat | middleware/uip/uip/uip.c:343-349 | sums over an even-length prefix and the rest add up to the sum over the whole |
| Checksum.ChksumChains | middleware/uip/uip/uip.c:343-349 | feeding one result in as the next seed equals one pass over the concatenation, as the pseudo-header code needs |
| Checksum.WordSumUpdate | middleware/uip/uip/uip.c:1843-1845 | overwriting one aligned word moves the sum by exactly the difference |
| Packet.AcceptedIff | middleware/uip/uip/uip.c:322-324 | the comparison with 0xffff succeeds exactly when the words sum to a multiple of 65535, on either byte order |
| Packet.HeaderCorruptionDetected | middleware/uip/uip/uip.c:318-325 | an accepted header with any one word changed is accepted again if and only if the change is 0 for 0xffff or back, or none |
| Packet.SegmentCorruptionDetected | middleware/uip/uip/uip.c:328-352 | so is a segment with any one word of it, or of the addresses, changed |
| Packet.IpChksum | middleware/uip/uip/uip.c:318-325 | what uip_ipchksum reports for the header in the buffer |
| Packet.UpperLayerChksum | middleware/uip/uip/uip.c:328-352 | what upper_layer_chksum reports: length, protocol, addresses and segment summed as one, for every IP length that covers the header and stays in the buffer |
| Packet.FilledFieldAccepted | middleware/uip/uip/uip.c:1843-1845 | storing the complement of a sum taken over a zeroed field makes the covered words pass the receive test |
| Packet.FillTcpChecksum | middleware/uip/uip/uip.c:1843-1845 | after the field is filled in place the receive-side TCP test passes and no other byte changed |
| Packet.FillIpChecksum | middleware/uip/uip/uip.c:1862-1864 | after the field is filled in place the receive-side IP test passes and no other byte changed |
| Packet.FillChecksums | middleware/uip/uip/uip.c:1843-1864 | the end of the send path: both receive-side tests pass, header constants and IP id are in place, the rest is untouched |
| Packet.BumpedInNetworkOrder | middleware/uip/uip/uip.c:998-1002 | the host-order comparison and addition raise the stored word by the step mod 65535 in network order, on either byte order |
| Packet.UpdatedKeepsSum | middleware/uip/uip/uip.c:996-1002 | lowering a byte and bumping the checksum keeps the word sum mod 65535 if and only if the byte did not wrap below 0 |
| Packet.DecrementTtl | middleware/uip/uip/uip-fw.c:462-470 | the forwarding rewrite of TTL and header checksum in the buffer: nothing else changes, and the header verdict is kept if the TTL was not 0 |
| Forward.FwForward | middleware/uip/uip/uip-fw.c:405-486 | who stays, who is dropped as known to the cache and what is handed to an interface and remembered, always with a TTL of at least 1; a packet that lived long enough has one less, the header verdict it came with and the same identity, any other became a message to its sender that passes |
| Forward.LoopStops | middleware/uip/uip/uip-fw.c:430-452 | a packet that comes back round a loop is not handed on again for exactly the time the cache keeps it |
| ForwardCache.FwCache.Lookup | middleware/uip/uip/uip-fw.c:430-452 | the scan finds a packet exactly when a running entry has its identification, addresses and protocol |
| ForwardCache.FwCache.Oldest | middleware/uip/uip/uip-fw.c:287-299 | the scan always finds an entry: the first free one, or else the last of those with the smallest timer |
| ForwardCache.FwCache.Register | middleware/uip/uip/uip-fw.c:281-317 | that entry, and no other, now remembers the packet |
| ForwardCache.FwCache.Periodic | middleware/uip/uip/uip-fw.c:522-531 | every running timer goes down by one |
| ForwardCache.RememberedFor | middleware/uip/uip/uip-fw.c:522-531 | with nothing else handed on, a packet is known for exactly FW_TIME periodic calls |
| ForwardCache.NextForgetsIff | middleware/uip/uip/uip-fw.c:287-299 | a packet is forgotten for the next one handed on if and only if its entry is the last and all others were written in the same period |
| Forward.TimeExceeded | middleware/uip/uip/uip-fw.c:222-273 | no message about ICMP; any other packet becomes the time-exceeded message: addressed to its sender, quoting its first 28 bytes, both checksums passing |
| Packet.EchoReply | middleware/uip/uip/uip.c:996-1006 | the echo request in the buffer becomes its reply: type, checksum and both addresses rewritten, nothing else; the ICMP verdict stays, and the IP header of an accepted request passes again if and only if uip_hostaddr sums to what the address asked for did |
| Packet.EchoKeepsVerdict | middleware/uip/uip/uip.c:996-1002 | the reply's ICMP words sum to the request's mod 65535, so the peer's check gives the same verdict |
| Packet.AddressSwapKeepsSum | middleware/uip/uip/uip.c:1004-1006 | exchanging the addresses leaves the IP header sum as it was |
| Packet.AnsweredSum | middleware/uip/uip/uip.c:1004-1006 | answering from any address moves the header sum by the difference to the address asked for |
| Wire.Send | middleware/uip/uip/uip.c:1787-1864 | a segment written into uip_buf from tcp_send on passes the IP and TCP tests of receivers of either byte order and is read back as that segment, ports, addresses, numbers, flags, window, option and data |
| Wire.HeldIsRead | middleware/uip/uip/uip.c:1394-1402 | fields and lengths in their places are read back as the segment they came from |
| Wire.FieldsByRfc | middleware/uip/uip/uip.c:1394-1402 | every field of a segment that is read is where section 3.1 of RFC 793 and of RFC 791 put it |
| Wire.EmittedIsSendable | middleware/uip/uip/uip.c:1364-1379 | everything the stack answers with, resets included, has the form that is written |
| Wire.DataDisplaced | middleware/uip/uip/uip.c:692-692 | uip_appdata is not moved past TCP options: the application finds the data sent if and only if there are no options or the data repeats them |
| SeqNum.Add32 | middleware/uip/uip/uip.c:249-273 | byte-wise addition with hand-rippled carries is exact addition mod 2^32 |
| SeqNum.Increment | middleware/uip/uip/uip.c:1249-1255 | the nested byte increments add exactly 1 mod 2^32 |
| SeqNum.AtPlus | middleware/uip/uip/uip.c:249-273 | advancing the sequence number of a stream position gives the sequence number of the later position |
| SeqNum.AtInjective | middleware/uip/uip/uip.c:1425-1428 | positions less than 2^32 apart have equal sequence numbers only if they are the same position |
| Digits.EmitDigits | libc/printf.c:11-23 | the digit loop leaves the digits of the value, least significant first, and the cursor behind the last |
| Digits.Itoa | libc/printf.c:4-37 | the buffer holds the numeral of the value, most significant digit first, then the terminator; the rest is untouched |
| Digits.NumeralDenotes | libc/printf.c:14-23 | for every radix 2..36 the numeral denotes the value, has legal digits and no leading zero |
| Digits.SkipAtoi | libc/lib.c:84-93 | the parser returns the value of the leading digits, or overflows, and stops at the first non-digit |
| Digits.PrintThenParse | libc/lib.c:84-93 | parsing a printed base-10 number gives it back exactly when it is at most 2^31-1-48, and overflows otherwise |
| Psock.Psock.BufTo | middleware/uip/uip/psock.c:110-142 | stores up to the first marker while there is room, drops the rest of that part, and reports found and full exactly |
| Psock.Psock.BufData | middleware/uip/uip/psock.c:82-108 | copies as much of the segment as fits and reports full exactly when the buffer is |
| Psock.Psock.ReadTo | middleware/uip/uip/psock.c:272-297 | for every way a stream is cut into segments: the buffer keeps the first bytes up to the marker, what stays unread is what follows it, and the read ends iff the marker arrived |
| Psock.Psock.ReadBuf | middleware/uip/uip/psock.c:299-325 | for every way a stream is cut into segments the buffer is filled with exactly its first bytes and nothing is lost |
| Psock.TakenThenRest | middleware/uip/uip/psock.c:110-142 | a stream is what a marker-terminated read takes followed by what it leaves; the marker occurs in the former only at the end |
| Psock.TakenConcat | middleware/uip/uip/psock.c:281-290 | reading across a segment boundary is reading the concatenation |
| TcpEngine.UipConn.Timer | middleware/uip/uip/uip.c:706-809 | the slot's fields, the emitted segment and the application's event after a timer call are those of Tcp.Timer |
| TcpEngine.UipConn.Poll | middleware/uip/uip/uip.c:696-703 | a poll request does to the slot what Tcp.Poll says |
| TcpEngine.UipConn.Found | middleware/uip/uip/uip.c:1382-1786 | a segment for an existing connection does to the slot, in every state, what Tcp.Found says, and hands the application the bytes behind the fixed header, options first |
| TcpEngine.UipConn.ProcessAck | middleware/uip/uip/uip.c:1418-1460 | an acknowledgment of exactly what is outstanding clears it, moves snd_nxt and restarts the timer; any other changes nothing |
| TcpEngine.UipConn.UpdateRtt | middleware/uip/uip/uip.c:1437-1449 | the round-trip estimator on a signed char and three bytes |
| TcpEngine.UipConn.AppSend | middleware/uip/uip/uip.c:1648-1719 | abort, close, or send at most one MSS, remembering what is outstanding |
| TcpEngine.UipConn.Accept | middleware/uip/uip/uip.c:1303-1379 | a slot filled in for a SYN, and the SYNACK answering it |
| TcpEngine.UipConn.Open | middleware/uip/uip/uip.c:448-465 | a slot filled in by an active open |
| TcpEngine.UipStack.constructor | middleware/uip/uip/uip.c:379-403 | the table after uip_init over zeroed memory |
| TcpEngine.UipStack.FindConn | middleware/uip/uip/uip.c:1189-1197 | the scan finds the first slot the segment matches |
| TcpEngine.UipStack.FindSlot | middleware/uip/uip/uip.c:1279-1291 | the scan finds the first CLOSED slot or else the oldest TIME_WAIT one |
| TcpEngine.UipStack.Input | middleware/uip/uip/uip.c:1189-1301 | a segment changes the whole table, the globals and the output as Tcp.Input says |
| TcpEngine.UipStack.Periodic | middleware/uip/uip/uip.c:706-809 | a periodic call increments iss and runs the timer of one slot |
| TcpEngine.UipStack.PollConn | middleware/uip/uip/uip.c:696-703 | a poll request touches one slot and uip_slen |
| TcpEngine.UipStack.IsPortInUse | middleware/uip/uip/uip.c:421-427 | the scan is true exactly when a live slot has the port |
| TcpEngine.UipStack.Connect | middleware/uip/uip/uip.c:407-468 | the port loop terminates, lastport ends on a port no live slot had, and the table changes as Tcp.Connect says |
| TcpEngine.UipStack.Listen | middleware/uip/uip/uip.c:529-537 | the first empty listen entry takes the port |
| TcpEngine.UipStack.Unlisten | middleware/uip/uip/uip.c:518-526 | the first listen entry with the port is emptied |
| TcpInvariants.TimerKeeps | middleware/uip/uip/uip.c:706-809 | a timer call keeps the length, MSS and retransmission discipline of a slot, emits only data that fits, and leaves the state, closes the slot or takes ESTABLISHED to FIN_WAIT_1 |
| TcpInvariants.PollKeeps | middleware/uip/uip/uip.c:696-703 | so does a poll request, with the same edges |
| TcpInvariants.FoundKeeps | middleware/uip/uip/uip.c:1382-1786 | any segment with any application reply keeps the discipline in every state and takes only edges of the state diagram; nothing reopens a slot |
| TcpPolls.SilentCommitIff | middleware/uip/uip/uip.c:696-703 | for every event of the whole stack: with a silent application an idle connection gets data outstanding if and only if the event polls it, an earlier packet left a length in uip_slen, and the MSS is not 0 |
| TcpPolls.StaleLengthReached | middleware/uip/uip/uip.c:696-703 | five events from uip_init reach such a state: another connection sent five bytes, and polling the idle one commits five bytes nobody gave it |
| TcpPolls.SilentEventsLeaveNothing | middleware/uip/uip/uip.c:720-722 | with a silent application no event raises uip_slen, and a timer call clears it |
| TcpInvariants.StepKeepsTable | middleware/uip/uip/uip.c:681-1870 | every event keeps the discipline in every slot of the table |
| TcpInvariants.ReachableTable | middleware/uip/uip/uip.c:379-403 | the discipline holds after every run from uip_init |
| TcpInvariants.DemuxMatches | middleware/uip/uip/uip.c:1189-1197 | the slot found matches and no earlier one does |
| TcpTimers.LifetimeValues | middleware/uip/uip/uip.c:739-762 | the backoff table adds up to 246 ticks after the running countdown, 99 in the SYN states |
| TcpTimers.ExactLifetime | middleware/uip/uip/uip.c:739-762 | with any replies, a slot with data outstanding is CLOSED at exactly its lifetime, after using exactly the retransmissions it had left, and unchanged in state and length before |
| TcpTimers.ExactTimeout | middleware/uip/uip/uip.c:739-762 | from nrtx = 0 and timer = t: CLOSED after exactly t+246 ticks and 8 retransmissions, t+99 and 5 while opening |
| TcpTimers.RetransmissionTimes | middleware/uip/uip/uip.c:757-762 | from nrtx = 0 and timer = t the (n+1)-th retransmission happens on exactly tick t + 1 + 3*(2^n - 1) + n for n <= 5, and each 49 ticks after the one before from then on, whatever the application replies |
| TcpTimers.TickOutcome | middleware/uip/uip/uip.c:739-791 | what a tick of a slot with something outstanding sends and tells: nothing, the SYN, SYN-ACK or FIN again, the question to the application and its data again, or a reset and the timeout notice |
| TcpTimers.OpenedGivesUp | middleware/uip/uip/uip.c:448-465 | after uip_connect the SYN goes out on the second tick and the slot is given up on exactly the hundredth |
| TcpTimers.AcceptedGivesUp | middleware/uip/uip/uip.c:1303-1322 | a SYN-ACK is repeated on the fourth tick and its slot given up on exactly the 102nd |
| TcpTimers.ExactWait | middleware/uip/uip/uip.c:729-734 | TIME_WAIT and FIN_WAIT_2 close at exactly the tick where the byte counter meets 120: 120 ticks from 0, at most 256 |
| TcpTimers.TimeWaitStartsAtZero | middleware/uip/uip/uip.c:1739-1784 | every way into TIME_WAIT starts the wait at 0 and no later segment prolongs it |
| TcpTimers.SilenceLeavesIdle | middleware/uip/uip/uip.c:729-807 | after 501 ticks of silence a slot is CLOSED or idle in ESTABLISHED |
| TcpTable.DemuxIsUnique | middleware/uip/uip/uip.c:1189-1197 | with distinct connections at most one slot matches a segment, and it is the one found |
| TcpTable.FreeSlotMeaning | middleware/uip/uip/uip.c:1279-1301 | a new connection takes a CLOSED slot, or the longest waiting TIME_WAIT slot when none is CLOSED, and none only if there is neither |
| TcpTable.TriedClosedForm | middleware/uip/uip/uip.c:412-417 | the k-th port tried, in closed form across the wrap from 31999 to 4096 |
| TcpTable.SomePortIsFree | middleware/uip/uip/uip.c:421-427 | by pigeonhole one of UIP_CONNS+1 consecutive tries is free |
| TcpTable.SearchFindsFreePort | middleware/uip/uip/uip.c:411-427 | the port search settles within UIP_CONNS+1 tries on a port no live slot has, for every table and reachable lastport |
| TcpTable.StepKeeps | middleware/uip/uip/uip.c:681-1870 | every event keeps the (lport, rport, ripaddr) triples of live slots pairwise distinct |
| TcpTable.Reachable | middleware/uip/uip/uip.c:379-403 | so they are distinct in every reachable table |
| TcpTable.ListenersCount | middleware/uip/uip/uip.c:517-537 | uip_listen adds exactly one listener on the port while there is room, uip_unlisten takes exactly one away |
| TcpTable.IssCounts | middleware/uip/uip/uip.c:711-718 | over every run the initial sequence number counts the timer calls mod 2^32 |
| TcpEndToEnd.StepKeepsAgreement | middleware/uip/uip/uip.c:1404-1786 | any event at either end, from the SYN to the last FIN, keeps both streams in agreement; a poll request may find any length in uip_slen |
| TcpEndToEnd.RunKeepsAgreement | middleware/uip/uip/uip.c:1404-1786 | so does any run of such events |
| TcpEndToEnd.EndToEnd | middleware/uip/uip/uip.c:1404-1460 | after any run from the handshake or from an open connection the bytes delivered are a prefix of the bytes sent, and snd_nxt <= peer's rcv_nxt <= snd_nxt+len, in both directions |
| TcpEndToEnd.AcknowledgedMeansReceived | middleware/uip/uip/uip.c:1422-1458 | when nothing is outstanding at either end the other has received everything and, while open, handed it all on; nothing is acknowledged that was not received |
| TcpEndToEnd.HandshakeAgrees | middleware/uip/uip/uip.c:1468-1545 | whoever is ESTABLISHED has a peer that took its SYN, and with nothing outstanding each expects exactly the number the other sends next |
| TcpHandshake.HandshakeOpens | middleware/uip/uip/uip.c:1303-1379 | when nothing is lost, two ticks, the SYN, the SYN-ACK and its acknowledgment make both ends ESTABLISHED |
| TcpProgress.RunKeepsWhole | middleware/uip/uip/uip.c:1404-1460 | over every run, of what one end has outstanding the other has received everything or nothing, and no packet on its way ends in between |
| TcpProgress.DataCanGetThrough | middleware/uip/uip/uip.c:1418-1460 | from every reachable state with both ends open and outstanding data the other end takes, some run acknowledges the stream to its end, all of it handed on, in either direction |
| TcpClosing.CloseCompletes | middleware/uip/uip/uip.c:1548-1784 | from every reachable state in which one end has closed and the other has too or is open, idle and not stopped, some run without resets brings both to TIME_WAIT or CLOSED, each having received the other's whole stream and FIN |
| TcpClosing.RunKeepsConsistent | middleware/uip/uip/uip.c:1548-1784 | over every run a FIN that waits is on the wire, and an end has taken the other's FIN exactly when its state says so |
| TcpFlow.FlowControl | middleware/uip/uip/uip.c:1606-1690 | over everything that happened to a connection: what an event puts on its way has exactly the length of what the application sends, cut to the window of the last segment taken if that is between 1 and the limit, and else to the limit; the segment carries just that |
| TcpFlow.AcceptedLimit | middleware/uip/uip/uip.c:1338-1345 | for an accepted connection that limit is the MSS of its SYN, at most 366 |
| TcpFlow.OpenedLimit | middleware/uip/uip/uip.c:1495-1512 | for an opened one it is the MSS of the SYN-ACK, at most 366, and 366 if that carried none |
| TcpNotices.Notices | middleware/uip/uip/uip.c:1380-1786 | each flag a segment makes the application see, with its exact reason; and the next state is determined by what was told and answered |
| TcpNotices.Responses | middleware/uip/uip/uip.c:1380-1786 | what is taken is acknowledged at once, with one exception; what is out of sequence is answered with what is expected; resets are not answered; an acknowledgment alone is answered with another only in TIME_WAIT; and a FIN, data or abort goes out in the event that starts it, with all retransmissions to come |
| TcpNotices.ExpectsNext | middleware/uip/uip/uip.c:1380-1786 | rcv_nxt moves on by exactly what is taken in each state: the data handed on, the data and FIN, or nothing; a SYN-ACK sets it |
| TcpNotices.ClockSendsAfresh | middleware/uip/uip/uip.c:696-809 | the same of ticks and poll requests, which ask the application exactly when the connection is open and idle |
| TcpNotices.LengthLeft | middleware/uip/uip/uip.c:1648-1719 | what every event leaves in uip_slen, told by what the application was told and did: a length it sent on being told of an end stays, though nothing went out with it |
| TcpNotices.UrgentIsNotAcknowledged | middleware/uip/uip/uip.c:1578-1607 | an open connection acknowledges all of a segment with data if and only if no part of it is urgent |
| TcpNotices.UrgentIsSkipped | middleware/uip/uip/uip.c:1593-1607 | of a segment with an urgent part the application is handed exactly what is behind that |
| TcpNotices.StoppedTakesNothing | middleware/uip/uip/uip.c:1598-1607 | stopped and not restarted, a connection takes nothing over every run |
| TcpNotices.RestartIsAnnounced | middleware/uip/uip/uip.c:1692-1718 | a restart while polled goes out at once with the window open |
| TcpRtt.Jacobson | middleware/uip/uip/uip.c:1437-1449 | while nothing wraps, the estimator moves the mean by an eighth of the error and the deviation by a quarter of its own |
| TcpRtt.ClockAtSegment | middleware/uip/uip/uip.c:1436-1456 | every segment: one that acknowledges what is outstanding measures it, if sent once, and starts the timer at the timeout; any other leaves timer and estimate alone; TIME_WAIT begins at 0 |
| TcpRtt.MovesTowardsSample | middleware/uip/uip/uip.c:1437-1449 | the mean moves towards the sample and never beyond it |
| TcpRtt.Settles | middleware/uip/uip/uip.c:1437-1449 | with a steady round-trip time that the mean has reached the timeout settles within three ticks above it |
| TcpRtt.FirstMeasurement | middleware/uip/uip/uip.c:1303-1306 | the handshake of an accepted connection sets the timeout to three ticks above what it measured |
| TcpRtt.FirstMeasurementOpened | middleware/uip/uip/uip.c:456-463 | the first data of an opened connection sets it twelve above |
| TcpRtt.RetransmittedIsNotMeasured | middleware/uip/uip/uip.c:1436-1437 | what was sent more than once is not measured |
| TcpLimits.AcceptedCanSendIff | middleware/uip/uip/uip.c:1327-1357 | an accepted connection can ever have data on its way if and only if its SYN carried an MSS other than 0, or none and the slot's last limit was not 0 |
| TcpLimits.FirstUseNeedsMss | middleware/uip/uip/uip.c:1327-1357 | in a slot not used since uip_init a SYN without the option opens a connection that over no sequence of segments, ticks and poll requests sends data |
| TcpNetwork.TableActsAsEndpoint | middleware/uip/uip/uip.c:1189-1301 | every event of a whole table acts on the slot of a connection, its output and its callback as one endpoint event, or leaves it alone |
| TcpNetwork.TwoHosts | middleware/uip/uip/uip.c:407-468 | between two hosts with whole tables, from uip_connect on and over all runs of one incarnation, the two slots keep the window relation and deliver prefixes |
| TcpAddressing.ConnectionSpeaksToPeer | middleware/uip/uip/uip.c:448-465 | over every run that a connection opened by uip_connect lasts through, whatever is sent for it goes to the port and host asked for and comes from the port the search found |
| TcpAddressing.ReachesTheOtherEnd | middleware/uip/uip/uip.c:1189-1197 | over every run of two hosts, whatever one end sends apart from resets is between the two named ports, and while the other end lives it is demultiplexed to exactly its slot |
| TcpAddressing.HostsConnect | middleware/uip/uip/uip.c:1268-1379 | two ticks after uip_connect, a host that listens on the port asked for, has room and no connection of that name answers, and segment by segment both tables come to hold the open connection, both applications told |
| TcpAddressing.RefusedIff | middleware/uip/uip/uip.c:1205-1301 | a segment that matches no slot is refused with a reset if and only if it is no SYN to a listener; such a SYN is dropped in silence exactly when no slot is free |
| TcpAddressing.RefusalReaches | middleware/uip/uip/uip.c:1216-1262 | the reset matches the slot that sent what was refused, closes it and makes its application told, with numbers the slot would expect |
| Bitmap.LowestMeaning | kernel/prio_sched.c:42-59 | all 256 table entries: the entry of a non-zero byte is a set bit below which none is set |
| Bitmap.SetMeaning | kernel/prio_sched.c:63-70 | bitmap_set marks exactly one more priority and keeps the summary byte in step |
| Bitmap.ClearMeaning | kernel/prio_sched.c:81-89 | bitmap_clear unmarks exactly one priority and keeps the summary byte in step |
| Bitmap.GetIsMinimum | kernel/prio_sched.c:72-79 | bitmap_get returns the smallest marked priority whenever one is marked |
| Bitmap.ReadyIndex.BitmapSet | kernel/prio_sched.c:63-70 | the two static variables after bitmap_set |
| Bitmap.ReadyIndex.BitmapClear | kernel/prio_sched.c:81-89 | the two static variables after bitmap_clear |
| Bitmap.ReadyIndex.BitmapGet | kernel/prio_sched.c:72-79 | the value bitmap_get reads off them |
| LinkedLists.ListInit | kernel/list.c:40-44 | a head alone is a well-formed empty list |
| LinkedLists.ListInsert | kernel/list.c:54-59 | a node goes behind the last one and the list stays well formed |
| LinkedLists.ListInsertSpec | kernel/list.c:64-76 | a node goes first, in an empty or non-empty list, and the list stays well formed |
| LinkedLists.ListDelete | kernel/list.c:78-87 | any member, last or not, leaves; the rest stays a well-formed list and the node keeps its own links |
| LinkedLists.ListInsertBehind | kernel/list.c:90-98 | the loop terminates at the tail and the node goes there |
| LinkedLists.LastIsLast | kernel/list.c:46-49 | in a well-formed list a node is its own successor exactly when it is the last |
| LinkedLists.ListHeap.InsertBehind | kernel/list.c:90-98 | among all lists of the kernel exactly one grows at its tail; every other list and every uninvolved node is as it was |
| LinkedLists.ListHeap.InsertSpec | kernel/list.c:64-76 | the same at the head |
| LinkedLists.ListHeap.Remove | kernel/list.c:78-87 | the entry leaves the one list it is on; every other list is as it was and the node keeps its links |
| LinkedLists.ListHeap.Successors | kernel/list.c:78-98 | where the next pointers of head and members lead |
| ListModel.InsertTailOk | kernel/list.c:90-98 | an entry on no list may be appended: still no entry is on two lists or twice on one |
| ListModel.DeleteOk | kernel/list.c:78-87 | deletion keeps that too and removes exactly the entry |
| KernelHeap.Kernel.ReadyDelete | kernel/prio_sched.c:151-165 | unlinks the task and clears its bit exactly when its queue became empty |
| KernelHeap.Kernel.ReadyTail | kernel/prio_sched.c:128-138 | sets the bit and links the task last; untouched nodes stay untouched |
| KernelHeap.Kernel.ReadyHead | kernel/prio_sched.c:140-149 | sets the bit and links the task first |
| KernelHeap.Kernel.Search | kernel/prio_sched.c:92-118 | the table lookup yields a ready task, never a list head |
| KernelHeap.Kernel.Fetch | kernel/prio_sched.c:167-189 | rotates the chosen task and switches to it unless it already runs |
| KernelHeap.Kernel.Schedule | kernel/prio_sched.c:192-205 | does nothing when locked, else fetches |
| KernelHeap.Kernel.SemGet | kernel/semaphore.c:71-91 | the whole kernel state after sem_get, scheduling included, is KernelSpec.SemGet of the state before, the invariant is kept, a null handle changes nothing |
| KernelHeap.Kernel.SemPut | kernel/semaphore.c:93-118 | sem_put is its section with interrupts off, then a scheduling point; a null handle changes nothing |
| KernelHeap.Kernel.Give | kernel/semaphore.c:99-114 | that section: hand-off, counting and saturation as KernelSpec.SemPut says, the invariant kept |
| KernelHeap.Kernel.MutexGet | kernel/mutex.c:78-107 | mutex_get, scheduling included: block, or take the mutex and rise to the ceiling |
| KernelHeap.Kernel.MutexPut | kernel/mutex.c:113-139 | mutex_put is its section, then a scheduling point |
| KernelHeap.Kernel.GiveBack | kernel/mutex.c:119-136 | that section: priority restored, mutex enabled, first waiter released, as KernelSpec.MutexPut says |
| KernelHeap.Kernel.MsgPut | kernel/queue.c:80-120 | the whole kernel state after msg_put is KernelSpec.MsgPut of the state before, with its status |
| KernelHeap.Kernel.MsgGet | kernel/queue.c:122-153 | msg_get with its status and the message handed out; when it blocks, its section and then a scheduling point |
| KernelHeap.Kernel.Await | kernel/queue.c:142-149 | the blocking section: the caller leaves its ready queue for the wait list with the invariant kept while it is still the running task |
| KernelHeap.Kernel.TaskCreate | kernel/task.c:49-66 | the kernel state after task_create is KernelSpec.TaskCreate of the state before, for every priority in the index bytes; the invariant holds afterwards if and only if the priority has a ready queue |
| KernelHeap.Kernel.TaskPrioChange | kernel/task.c:69-83 | likewise for task_prio_change: every accepted priority, 32 included, with the invariant kept if and only if it is below 32 |
| KernelHeap.Kernel.OsDelay | kernel/timer.c:139-154 | os_delay is its section, then a scheduling point |
| KernelHeap.Kernel.Sleep | kernel/timer.c:145-151 | that section: from the ready queue to the tick queue, the invariant kept while the running task is not ready |
| KernelHeap.Kernel.TimerReq | kernel/timer.c:120-136 | the whole kernel state after timer_req is KernelSpec.TimerReq of the state before |
| KernelHeap.Kernel.HardwareTimer | kernel/timer.c:65-117 | hardware_timer is the pass over the tick queue, then a scheduling point, in every state with interrupts on, also when the interrupted task is on no ready queue |
| KernelHeap.Kernel.VisitQueue | kernel/timer.c:78-112 | the cursor loop that unlinks nodes under itself terminates and visits exactly the nodes present at entry, once each, in order |
| KernelHeap.Kernel.Traverse | kernel/timer.c:65-113 | hardware_timer with interrupts off: one system tick, then that loop, as KernelSpec.HardwareTimer says |
| KernelHeap.Kernel.VisitHere | kernel/timer.c:83-111 | one iteration: after the node under the cursor was possibly unlinked, the cursor still leads to the rest of the queue or ends it |
| KernelHeap.Kernel.ScheduleLock | kernel/prio_sched.c:222-230 | sets or clears the scheduler lock |
| KernelHeap.Kernel.Start | app/system_start.c:57-71 | creating and starting the idle task establishes the invariant |
| KernelHeap.Kernel.constructor | app/system_start.c:39-55 | initialised data with empty lists is a blank kernel |
| KernelInvariants.TableFindsTask | kernel/prio_sched.c:92-103 | whenever someone is ready the table finds a ready task of the smallest priority value, never a sentinel |
| KernelInvariants.TableIsLinearSearch | kernel/prio_sched.c:92-118 | the table lookup returns the task the linear scan it replaces would return |
| KernelInvariants.ScheduleKeeps | kernel/prio_sched.c:192-205 | schedule() keeps the invariant, and after it the running task is ready whether or not it was before |
| KernelInvariants.ParkKeeps | kernel/semaphore.c:79-84 | a blocking caller ends on exactly one wait list |
| KernelInvariants.WakeKeeps | kernel/semaphore.c:103-107 | releasing the first waiter moves it to its ready queue and nothing else |
| KernelInvariants.VisitAllKeeps | kernel/timer.c:78-112 | the tick traversal keeps the invariant and every ready task ready |
| KernelInvariants.HardwareTimerKeeps | kernel/timer.c:65-113 | a tick taken between interrupt_enable and schedule(), with the running task on no ready queue, keeps the invariant |
| KernelInvariants.StepKeeps | kernel/prio_sched.c:128-205 | every step keeps: each created task on exactly one list, lists apart, index in step, counts right, the idle task ready, and the running task ready unless it may be switched away |
| KernelInvariants.RunKeeps | kernel/prio_sched.c:128-205 | so does every run |
| KernelScheduling.ReachableInv | app/system_start.c:39-71 | it holds in every state a booted kernel reaches |
| KernelScheduling.ExactlyOneList | kernel/include/var_define.h:132-141 | a created task is on exactly one list and once: its ready queue, one wait list, or the tick queue through its delay node |
| KernelScheduling.IndexAgrees | kernel/prio_sched.c:61-89 | bit p is set iff ready queue p is non-empty, and the summary bit iff its byte is not 0 |
| KernelScheduling.ScheduleRunsMostUrgent | kernel/prio_sched.c:167-205 | after an unlocked schedule() the running task is ready and no ready task has a smaller priority value |
| KernelScheduling.FetchRotates | kernel/prio_sched.c:167-189 | a fetch moves the first task of the top queue to its tail, runs it, and leaves all other lists alone |
| KernelScheduling.RoundRobin | kernel/prio_sched.c:167-205 | n schedules over an unchanged top queue of n run each task once, in queue order, and restore the queue |
| KernelScheduling.KeptIffQueued | kernel/task.c:49-83 | every step the sources allow keeps the invariant if and only if the priority it gives a task has a ready queue |
| KernelScheduling.PrioChangeKeptIff | kernel/task.c:69-83 | for every priority task_prio_change accepts, the invariant holds afterwards if and only if it is below 32 |
| KernelInterrupts.PrioChangeInterrupted | kernel/task.c:78-80 | a tick at any of three points of task_prio_change, traversal and scheduling point: the call ends well if and only if the scheduler is locked; unlocked, the table leads to a list head exactly when nobody else is ready or wakes up to the priority marked too early, else the task is switched away from and on no list |
| KernelInterrupts.PointsDivide | kernel/prio_sched.c:140-165 | those points divide the call: resumed at once, each ends where the call does |
| KernelInterrupts.InterruptedIsLost | kernel/task.c:78-80 | switched away from at a point where the marks are right without it, the task never runs and is on no list over every run of calls that follows, while the rest of the kernel keeps the invariant |
| KernelInterrupts.TaskCreateInterrupted | kernel/task.c:63-63 | a tick in task_create between marking and linking: the table leads to a list head if and only if nobody is ready or wakes up to the new priority |
| KernelInterrupts.CreationDivides | kernel/task.c:59-66 | the point divides task_create: resumed at once, it ends where the call does |
| KernelResumption.CallerGoesOnIff | kernel/task.c:63-63 | that tick finds a task and leaves the processor with the caller if and only if the scheduler is locked, or the caller is at least as urgent as the new task, first in its queue, and nobody more urgent is ready or wakes |
| KernelResumption.TaskCreateEndsWellIff | kernel/task.c:49-66 | over everything that may run before the caller goes on, schedule() never follows a list head and the call restores the invariant, if and only if the scheduler is locked, or the caller is at least as urgent as the new task and keeps the processor or somebody is ready or wakes at the new priority |
| KernelResumption.FailingInput | kernel/task.c:63-63 | a run from boot to a state in which the tick finds somebody to switch to and the call does not end well |
| KernelResumption.HeadNeverFollowedIff | kernel/task.c:78-80 | after such a tick in task_prio_change, unlocked, no run leads schedule() to a list head if and only if somebody besides the task is ready or wakes at the priority that is marked |
| KernelScheduling.UnqueuedTaskIsLost | kernel/task.c:49-66 | otherwise a bit is marked with no queue behind it, the task is on no ready queue and the table lookup never finds it |
| KernelSwitching.SwitchesToMostUrgent | kernel/prio_sched.c:192-205 | a step changes the running task only by scheduling or by blocking in sem_get or mutex_get, and then to a most urgent ready one |
| KernelSwitching.ScheduleSwitches | kernel/prio_sched.c:192-205 | a scheduling point changes nobody's readiness and, unlocked, always leaves a most urgent ready task running |
| KernelSwitching.StaysReady | kernel/prio_sched.c:151-165 | a ready task stays ready over every step unless it is the running one and blocks |
| KernelFrames.CallEffect | kernel/semaphore.c:71-118 | what each call other than hardware_timer, which KernelTicks.HardwareTimerMeaning covers, changes besides lists, index and choice of running task: exactly the named counters, and old_task, which is the task switched away from |
| KernelFrames.CallFrame | kernel/queue.c:80-153 | such a call leaves every wait list, message list and the tick queue it does not name exactly as it was |
| KernelQueues.ReadyQueues | kernel/prio_sched.c:120-165 | where every call that does not schedule leaves every ready queue: a released waiter before everybody, a caller whose priority changes at the front of its new queue, a created task behind everybody, a caller that sleeps or waits gone, the rest in place |
| KernelQueues.ReleasedRunsIff | kernel/semaphore.c:103-116 | the scheduling point behind sem_put, mutex_put or msg_put runs the released waiter if and only if no ready task has a smaller priority value |
| KernelQueues.ChangedGoesOnIff | kernel/task.c:69-83 | after task_prio_change the caller goes on if and only if no ready task has a smaller priority value |
| KernelTicks.VisitAllMeaning | kernel/timer.c:78-112 | the pass over the tick queue: survivors keep their order, due sleepers are appended to their ready queues in queue order, due timers fire in queue order, each countdown moves by one |
| KernelTicks.HardwareTimerMeaning | kernel/timer.c:65-113 | the whole call up to its scheduling point, every other list and field unchanged |
| KernelTicks.OtherCallsGrow | kernel/timer.c:120-154 | every other call keeps queued nodes, their order and their countdowns |
| TickRuns.DelayIsExact | kernel/timer.c:139-154 | os_delay(n): over any run the caller sleeps through n hardware_timer calls and is ready after the next, not before |
| TickRuns.OneShotFiresOnce | kernel/timer.c:83-95 | a one-shot timer fires on the call after its timeout ran down, not before, and leaves the queue |
| TickRuns.CycleRun | kernel/timer.c:90-92 | a cyclic timer never drifts: completed periods times copy+1 plus the part elapsed is the number of ticks, over any run |
| TickRuns.CyclicTimerPeriod | kernel/timer.c:90-92 | a cyclic timer has fired once for every timeout+1 hardware_timer calls |
| TickRuns.OrderKept | kernel/timer.c:78-112 | two queued nodes keep their order over any run while neither is due |
| TickRuns.SleepersWakeInOrder | kernel/timer.c:99-104 | equal-priority sleepers due on the same tick are appended to their ready queue in the order they went to sleep |
| TickRuns.ClockCounts | kernel/timer.c:74-75 | over every run fos_tick counts the hardware_timer calls mod 2^32 |
| SemHistory.SemaphoreConserves | kernel/semaphore.c:71-118 | over any run: initial count + counted puts = count + completed gets; started gets are the completed ones then the waiters, in order; units left mean no waiters |
| SemHistory.BalancedStep | kernel/semaphore.c:71-118 | every single call keeps that balance |
| SemHistory.PutHandsOff | kernel/semaphore.c:103-107 | a put with waiters makes the longest waiter ready and leaves the count at 0 |
| MsgQueues.CountIsLength | kernel/queue.c:82-103 | count is the list's length and at most the bound; FULL and EMPTY are reported exactly then, FALSE never |
| MsgQueues.QueueRefinesDeque | kernel/queue.c:80-153 | over any run the stored messages are those of a bounded deque given the same calls, and the bound never changes |
| MsgQueues.FifoOrder | kernel/queue.c:110-144 | with FIFO puts messages come out in exactly the order they were accepted |
| MsgQueues.NothingLost | kernel/queue.c:80-153 | with any puts every accepted message is delivered or still stored, exactly once |
| MsgQueues.PutReleasesFirst | kernel/queue.c:95-100 | a put releases the longest waiter, nobody else, even when the queue is full |
| Ceiling.HolderIsAlone | kernel/mutex.c:93-103 | while a mutex is held its holder runs, is alone in ready queue 1 with queue 0 empty, and schedule() keeps it |
| Ceiling.CeilingStep | kernel/mutex.c:78-139 | one disciplined call: no mutex_get blocks, the holder goes on running until its last release, and that gives it its own priority back |
| Ceiling.CeilingRun | kernel/mutex.c:78-139 | all disciplined runs keep the ceiling invariant |
| Ceiling.HolderRunsThroughout | kernel/mutex.c:88-103 | as long as something is held the running task never changes |
| Ceiling.CriticalSection | kernel/mutex.c:78-139 | from first get to last release only the holder runs, and it ends with the priority it started with |
| Ceiling.BootCeiled | app/system_start.c:39-71 | a booted kernel starts under the discipline |

## Left out

- TCP option parsing: a segment carries its option bytes and, apart from them, the 16-bit MSS the parser found; the option cursor is a byte and its termination is not claimed. `Wire` reads an MSS only where the stack puts it, first.
- `UIP_URGDATA` = 0 is modelled as written (the urgent pointer shortens the data); an urgent pointer beyond the segment hands the application no bytes, whereas the code reads on behind the segment.
- TcpEndToEnd.EndToEnd: streams below 2^32 bytes, no urgent data, an application that resends the same bytes while data is outstanding and closes only with nothing outstanding, as the code asks of applications.
- TcpNetwork.TwoHosts: one incarnation of the connection, host B answering in the slot named beforehand; apart from resets, what reaches a slot of the connection was sent by the other.
- TcpProgress.DataCanGetThrough: some run gets the data through; that every run of a fair channel does is not stated.
- Application callbacks that call `uip_connect` themselves, or `uip_stop` outside ESTABLISHED.
- `psock_send` for more than one segment and the generator variants; only the read side is modelled, and the waits of a protothread become the list of segments still to come.
- Psock.Psock.ReadTo: what stays unread is a value, while the code's `readptr` points into `uip_appdata`, which the next packet or a `uip_send` overwrites.
- IP length fields below the header length, fragments, UDP, IPv6 and ARP. `UIP_REASSEMBLY` and the choice of interface in `uip_fw_output` are not modelled, and the limited broadcast address stands for broadcasts.
- Packet.UpperLayerChksum: requires an IP length that covers the header and stays in the buffer, because a shorter one wraps and reads outside it, and a protocol number of at most 20 (6 and 17 are in use).
- Packet.EchoReply: no claim about the ICMP checksum of a request shorter than its checksum field, and `UIP_PINGADDRCONF` is 0.
- Contended mutex hand-off: `mutex_put` enables the mutex and releases a waiter that returns without taking it, so no mutual exclusion is claimed there; the model follows the code and the claims of `Ceiling` are about disciplined runs.
- Ceiling.CeilingStep: no claim for runs in which a holder sleeps, waits for a semaphore or a message, changes its priority or releases out of order.
- KernelHeap.Kernel.TaskPrioChange: requires the running task's own TCB, as the source asserts, and that the place the source takes for ready queue 32, behind its array of 32, holds a list head; what is there in memory is not modelled.
- KernelHeap.Kernel.TaskCreate: the same for priorities 32 to 63; 64 to 255, which the unchecked U8 argument also admits, would write outside the eight index bytes.
- KernelHeap.Kernel.TimerReq: the callback is a number; what it does is left out, only that it ran is recorded, so callbacks that edit the tick queue are not modelled.
- `task_create` and `task_prio_change` do not disable interrupts; outside `KernelInterrupts` each is one step. There a tick comes between unlinking, clearing, marking and linking; ticks inside one of these four, or between the test for an empty queue and the clearing, are not modelled, nor is what the code does once schedule() follows a list head.
- KernelResumption.TaskCreateEndsWellIff: for a ready caller, in kernels whose idle task still has the priority main gave it, 31, which the failing runs need.
- KernelResumption.HeadNeverFollowedIff: the same about the idle task.
- `fos_tick` is 32 bits wide in the model; ULONG is as wide as the target's long.
- `sem->tcb` and `mutex->tcb`, which only pass the caller to the insertion helper; `sem_init`, `mutex_init` and `msg_queue_create` at run time (objects are initialised before the kernel starts); message contents.
- `schedule_lock` held across a blocking call; context switching itself, interrupts, stacks and idle power.
- `kernel/mem_block.c`, `kernel/fsm.c`, `kernel/device.c`, the shell, CPU ports, drivers and the network applications: plumbing, I/O or assembly.
