# tju_tcp: a verified model of the transfer engine

This project models the user-space TCP of `src/tju_tcp.c`, `src/timer.c`, `src/syn.c` and `src/tju_packet.c` and proves
properties of the model with Dafny 4.11. `dafny verify dfyconfig.toml` checks all of it. Nothing of the original program
is run.

## How the model is built

Each part of the source that changes things in place is a class or a method over the same buffers and fields, proved equal
to a function on values; the theorems are about the functions, over every run.

| file | what it is |
|---|---|
| `Global.dfy` | constants and the packet type of the engine (sequence numbers unbounded) |
| `TjuPacket.dfy` | the 20-byte header, the field readers, the buffer writers |
| `Segmentation.dfy` | how the send and resend loops cut a buffer slice |
| `RttEstimator.dfy` | RTO arithmetic |
| `Congestion.dfy`, `CongestionHistory.dfy` | slow start, avoidance, fast recovery step by step; the same in closed form over any history |
| `SenderCore.dfy`, `SenderSocket.dfy` | the sender as values; the sender as a class over `sending_buf` |
| `Reassembly.dfy`, `Arrival.dfy`, `ReceiverWindow.dfy` | the receiver as a map; what one segment does to it, byte by byte; the receiver as a class over `recv_buf`, `mark`, `received_buf` |
| `Interleaved.dfy`, `InterleavedWakeup.dfy` | one sender, one receiver, a lossy network, threads interleaved |
| `InterleavedFlow.dfy`, `Overrun.dfy` | flow control with threads interleaved, and a run that breaks it |
| `Races.dfy`, `RecheckRace.dfy`, `TornPass.dfy` | schedules that lose a wake-up; a pass whose snapshot is torn |
| `Atomic.dfy`, `RunInvariants.dfy`, `Progress.dfy`, `Completion.dfy` | the same with every body one step: flow control, wake-up, progress |
| `SendingLaws.dfy`, `Measurement.dfy` | what each operation sends, does to the flags, and feeds to the estimator |
| `InterleavedProgress.dfy` | progress from inside critical sections |
| `Connection.dfy` | sender and receiver objects driven by those steps |
| `SendCall.dfy`, `Overflow.dfy` | what one call of `tju_send` appends; a run in which it appends too much |
| `SynQueue.dfy`, `Handshake.dfy`, `SplitAccept.dfy`, `Close.dfy` | the two queues, connection set-up, `tju_accept` in two steps, connection release |

The network is the set of packets sent so far. Any of them may arrive any number of times, in any order, or never: that is
loss, duplication and reordering. It starts with the last handshake ACK still under way (ACK 1, window 1), which a server
that sends data can receive late. `stream` is every byte put into the sending buffer, `read` every byte `tju_recv` has
returned.

Two grains of atomicity are used.

* In `Interleaved` the sending thread reads its window fields in one step and takes `send_lock` in a later one
  (src/timer.c:30-35); its loop then emits one segment per step, with `nextseq` published only at the end
  (src/timer.c:37-82); `retrans_thread` looks at the window, looks at `is_retransing`, and rechecks or takes the lock in
  separate steps (src/timer.c:91-115); a retransmission pass takes its snapshot in one step and emits one segment per
  step; meanwhile ACKs slide `ack_cnt` and `base`, and an ACK handler waits for the lock before compacting
  (src/tju_tcp.c:528-547). End-to-end safety and sender coupling hold in every such run; `InterleavedFlow` and
  `InterleavedWakeup` say exactly which of them keep flow control and wake-up, `InterleavedProgress` how they move on.
  `TornPass` reads the snapshot of a pass in two steps.
* In `Atomic` every handler, loop body and API call is one step. `AtomicIsInterleaved` shows that its runs are runs of
  `Interleaved`. Flow control holds in all of them, wake-up in exactly those whose timer starts succeed, a round trip
  moves on from exactly the states with something due, and transfers can be completed.

Assumptions: sequence numbers are unbounded, the comparisons of the source being plain; `PacketsFitWire` shows that
nothing wraps while stream and window stay below 2^32. The floating-point averages of `CalTimeout` are exact below 2^50,
and its `abs`, which takes an int, while sample and mean are less than 2^31 apart; so they are floors of exact quotients.
The round-trip sample, the expiry of the timer and the arrival of packets are chosen by the environment. `setitimer`
refuses more than 999999 in `tv_usec` and stops the timer on 0. `cal_hash` is an arbitrary function into 32 slots.

## Findings

Each failure comes with a run and with the exact condition under which a run avoids it.

* A timer start that meets a refused interval with the timer idle loses the wake-up, and nothing else does as long as
  bodies are not interrupted: `NoLostWakeup`. One round trip of a second is enough: `SlowRoundTrip`, exactly from
  1000000 microseconds on, and once the packet under way is lost nothing can save the byte (`SlowRoundTripStuck`). Samples
  between lo and hi around 200 ms with hi + 4(hi - lo) below a second are safe: `NoLostWakeupBounded`.
* With the threads interleaved four more things lose it, and no others (`OnlyFourRaces`, `NoLostWakeupArmable`): an expiry
  inside a pass, wiped out by the `RETRANS=FALSE` at its end (`ExpiryInsidePassStrands`); a segment sent on a snapshot
  older than the ACK of everything outstanding (`StaleSnapshotStrands`); the ACK of everything published while the loop of
  `sending_thread` has sent more, for which the handler stops the timer (`UnpublishedAckStrands`); and a third duplicate
  ACK or a closed window's expiry between the look at `is_retransing` and the `RETRANS=FALSE` of the recheck. After the
  last, with everything acknowledged, the connection never sends another byte, in any continuation
  (`RecheckBlocksForever`).
* A snapshot taken while an ACK handler waits for `send_lock` holds an `ack_cnt` from before the compaction; the burst
  adds it to the window and sends the whole buffer, up to 1.68 million bytes (`StaleCompactionOverruns`). Flow control is
  kept exactly by the segments that end within 44000 bytes of `ack_cnt` (`FlowControlInterleaved`), and a burst left to
  itself keeps it exactly if it is within that bound when it takes the lock (`UndisturbedBurst`), whatever happens until
  it ends (`TakenIff`).
* A retransmission pass reads `ack_cnt` and `base` one after the other, and the ACK handler slides the window without
  taking `send_lock`. An ACK in between gives every resent segment a number ahead of its bytes, and the application at the
  other end is handed bytes twice (`TornPassDuplicates`). All segments are numbered right iff no pass reads a base that
  does not go with its `ack_cnt` (`NumberedIffNeverTorn`); a torn read whose last segment is numbered below `expect_seq`
  does no harm (`ToothlessIgnored`).
* `tju_send` appends its data iff they fit the first time there is any room; otherwise a prefix goes into the stream
  twice: `AppendsExactlyIfFits`, `OverflowReached`.
* A socket waiting to be accepted belongs to a connected client, in every run, iff no two SYN source ports the server
  receives share a hash slot: `AcceptedIffApart`. (`tju_connect` itself always binds port 5678, src/tju_tcp.c:171.)
* With `tju_accept` taken apart, a second socket comes to wait for a registered slot iff a registration finds its slot
  refilled: `SplitAcceptSafeIff`, `SplitAcceptDoubles`.
* Both initial sequence numbers are 0 and a close frees the slot: copies of an old SYN and ACK arriving then are accepted
  as a new connection (`OldHandshakeAccepted`).
* `TCP_RTO_MIN` is commented as the shortest retransmission interval (inc/global.h:78-79) but is only the first mean;
  there is no lower bound on the RTO. Against section 2 of RFC 6298 the deviation uses the mean already updated. Against
  section 3.1 of RFC 5681 `ssthresh` has no floor, so `cwnd` can reach 0, and against its section 3.2 `cwnd` is not
  deflated on leaving fast recovery.

## Model

| member | source | states |
|---|---|---|
| TjuPacket.HeaderRoundTrip | src/tju_packet.c:72-182 | all nine getters read back what the header writer wrote, whatever bytes follow |
| TjuPacket.HeaderUnique | src/tju_packet.c:72-182 | any 20 bytes are exactly the header of the fields the getters find in them |
| TjuPacket.HeaderLayout | src/tju_packet.c:136-182 | each field as a big-endian number at its offset, flags at 16, extension at 19 |
| TjuPacket.PacketRoundTrip | src/tju_packet.c:188-200 | a packet with hlen at least 20 gives back its header and the plen - hlen data bytes |
| TjuPacket.WireRoundTrip | src/tju_packet.c:40-54 | every data or ACK packet of the engine decodes to itself and is at most 1400 bytes long |
| TjuPacket.EncodedFields | src/timer.c:45-46 | every field of every packet: ports as given, flags 0 and window 1 on data, flag 4 and own sequence number on ACKs, lengths |
| TjuPacket.Store8 | src/tju_packet.c:170-171 | one byte at the moving index, the rest of the buffer untouched |
| TjuPacket.Store16 | src/tju_packet.c:146-152 | two bytes, most significant first, the rest untouched |
| TjuPacket.Store32 | src/tju_packet.c:154-160 | four bytes, most significant first, the rest untouched |
| TjuPacket.StoreLengths | src/tju_packet.c:162-178 | the last five fields in order behind what is already written |
| TjuPacket.HeaderInChar | src/tju_packet.c:136-182 | a zeroed buffer of plen bytes whose first 20 are the header |
| TjuPacket.PacketToBuf | src/tju_packet.c:188-200 | header image with plen - hlen data bytes laid at hlen |
| Segmentation.SegmentLaw | src/timer.c:37-79 | a slice of n bytes gives ceil(n/1375) packets, the k-th carrying bytes 1375k on and numbered accordingly |
| Segmentation.SegmentsConcat | src/timer.c:37-79 | the payloads concatenate to the slice; each has 1 to 1375 bytes |
| Segmentation.SegmentContents | src/timer.c:137-167 | each packet holds exactly the bytes its sequence number names |
| Segmentation.WireCarriesSlice | src/timer.c:37-79 | a slice cut, written to the wire and read with the getters is the slice again, in packets of at most 1400 bytes |
| RttEstimator.Bounds | src/timer.c:220-227 | samples in [lo, hi] keep the mean in [lo, hi], the deviation at most hi - lo, the RTO in [lo, hi + 4(hi - lo)] |
| RttEstimator.BoundsFromStart | src/tju_tcp.c:45-51 | the same from the initial values for any bounds around 200000 |
| RttEstimator.UpdateLaw | src/timer.c:220-227 | one sample moves mean and deviation by exactly an eighth and a quarter, fractions dropped; the RTO is mean plus four deviations |
| RttEstimator.MeanDecays | src/timer.c:220-221 | after n equal samples the distance of the mean is (7/8)^n of what it was, from above and, up to 7, from below |
| RttEstimator.DeviationDecays | src/timer.c:224-225 | n samples equal to the mean keep it and take the deviation to (3/4)^n, from above and, up to 3, from below |
| RttEstimator.SettledStays | src/timer.c:220-227 | within 7 below the sample the truncated mean is a fixed point and the RTO is in [s-7, s+21] |
| RttEstimator.Approaches | src/timer.c:220-227 | any other state comes strictly closer with each sample |
| RttEstimator.ConstantSample | src/timer.c:220-227 | a repeated sample s brings mean into [s-7, s] and RTO into [s-7, s+21] after finitely many updates, for ever |
| RttEstimator.ArmsFromStart | src/timer.c:183-190 | which sample ranges keep every interval acceptable to setitimer |
| RttEstimator.FirstSampleArms | src/timer.c:183-190 | after the first sample the timer starts iff that sample is below one second |
| RttEstimator.SafeSampleArms | src/timer.c:220-227 | from every acceptable state some sample keeps the interval acceptable |
| Congestion.InvAlways | src/tju_tcp.c:445-517 | window_size is min(cwnd, rwnd) in every run; cwnd 0 means fast recovery, or avoidance with at most two duplicates |
| CongestionHistory.ClosedForm | src/tju_tcp.c:445-517 | status, cwnd, ssthresh, duplicates, rwnd and window after any events, as counts since the last loss and half the window before it |
| CongestionHistory.RecoveryLaw | src/tju_tcp.c:472-485 | a third duplicate sets cwnd and ssthresh to half the window; each further one adds a segment |
| CongestionHistory.SlowStartAfterLoss | src/timer.c:119-130 | after a timeout slow start ends at the first new ACK number n at least 1 with 1375 * 2^n at or above half the old window |
| CongestionHistory.AvoidanceLaw | src/tju_tcp.c:507-509 | avoidance without loss adds one segment per new ACK and nothing else |
| Congestion.Reopens | src/tju_tcp.c:458-490 | a closed congestion window opens after exactly Needed, at most four, duplicates with a positive window |
| Congestion.SlowStartLaw | src/tju_tcp.c:498-506 | in slow start cwnd is 1375 doubled once per new ACK since start or timeout, and below ssthresh once doubled |
| Congestion.SlowStartLength | src/tju_tcp.c:498-506 | loss-free slow start ends exactly at the first new ACK number n at least 1 with 1375 * 2^n at ssthresh or above |
| Congestion.FirstSlowStart | src/tju_tcp.c:56-57 | the first slow start lasts three new ACKs and ends with the fourth |
| Congestion.FastRetransmitOnce | src/tju_tcp.c:472-485 | between window-advancing ACKs at most one fast retransmit fires, whatever timeouts and duplicates occur |
| SenderCore.CoupledKept | src/timer.c:35-84 | every sender operation keeps ack_cnt <= have_send_len <= sending_len and nextseq - base = have_send_len - ack_cnt; an ACK does iff it is at most nextseq |
| SenderCore.CompactionLaw | src/tju_tcp.c:527-557 | after any ACK that names bytes inside the buffer the bytes from the new base on are unchanged and ack_cnt is at most 4/5 of the buffer |
| SenderCore.HandleAckFrame | src/tju_tcp.c:527-557 | where buffer, offsets and sequence numbers are after any ACK, compacted or not, unless the clean-up would wrap |
| SenderCore.BurstFrame | src/timer.c:35-84 | a burst moves only have_send_len and nextseq, by the same amount |
| SenderCore.RestUnfold | src/timer.c:39-78 | after one segment the rest of the burst leads to the same state and packets |
| SenderCore.NewAckFlags | src/tju_tcp.c:531-541 | a new ACK stops the timer iff it equals nextseq, else restarts it |
| SenderCore.HandleAckFlags | src/tju_tcp.c:531-565 | flags, window and estimator after a new ACK, compacted or not |
| SendCall.AppendsExactlyIfFits | src/tju_tcp.c:226-249 | a call of tju_send appends exactly its data iff they fit the first time there is any room; otherwise a prefix appears twice |
| SendCall.IterationAppends | src/tju_tcp.c:229-246 | the iterations of the model append what the call appends |
| Overflow.OverflowReached | src/tju_tcp.c:229-246 | for any data that do not fit some legal run puts their first bytes into the stream twice |
| SenderSocket.Sender.constructor | src/tju_tcp.c:23-67 | the fields start in the initial sender state |
| SenderSocket.Sender.StartTimer | src/timer.c:177-192 | both flags fall; the timer runs, stops, or keeps its setting as setitimer treats the interval |
| SenderSocket.Sender.StopTimer | src/timer.c:193-201 | only the timer changes |
| SenderSocket.Sender.TimeoutHandler | src/timer.c:202-206 | the one-shot timer is spent and both flags are raised |
| SenderSocket.Sender.CalTimeout | src/timer.c:208-230 | the three fields follow the estimator |
| SenderSocket.Sender.TjuSendIteration | src/tju_tcp.c:229-246 | one iteration appends all data and is done, or fills the buffer and is not; on a full buffer nothing happens |
| SenderSocket.Sender.BeginMeasurement | src/timer.c:63-67 | a measurement begins unless one is under way |
| SenderSocket.Sender.StartIfFirst | src/timer.c:69-74 | the timer and is_retransing, iff the snapshot saw nothing outstanding |
| SenderSocket.Sender.NextSegment | src/timer.c:38-59 | at most 1375 bytes from have_send_len, numbered by the local nextseq |
| SenderSocket.Sender.FirstSendOne | src/timer.c:39-78 | one loop pass is SendOne and emits SendPacket |
| SenderSocket.Sender.FirstSendLoop | src/timer.c:37-82 | the loop emits exactly the segments of the slice, touches flags and measurement once, and publishes nextseq |
| SenderSocket.Sender.SendBurst | src/timer.c:30-84 | the guarded body is Burst on the current window and emits BurstPackets |
| SenderSocket.Sender.SendingThread | src/timer.c:23-86 | one iteration: nothing, or a burst when the guard holds |
| SenderSocket.Sender.ReactToTimeout | src/timer.c:118-130 | with TIMEOUT_FLAG set, halve into ssthresh and fall back to one segment |
| SenderSocket.Sender.ResendOneSegment | src/timer.c:137-166 | one resent segment, and the timer iff it starts at ack_cnt |
| SenderSocket.Sender.ResendLoop | src/timer.c:137-167 | the loop emits the segments from ack_cnt to have_send_len and restarts the timer once |
| SenderSocket.Sender.LowerFlags | src/timer.c:170-171 | RETRANS and is_retransing fall |
| SenderSocket.Sender.ResendAndClear | src/timer.c:132-171 | resend, then both flags down |
| SenderSocket.Sender.RetransmissionPass | src/timer.c:115-172 | the body under the lock is WholePass |
| SenderSocket.Sender.ProbeOrRecheck | src/timer.c:92-113 | a closed window is probed with base - 1; a finished pass is rechecked for unacknowledged bytes |
| SenderSocket.Sender.RetransThread | src/timer.c:90-174 | one iteration with RETRANS raised |
| SenderSocket.Sender.CleanSendingBuf | src/tju_tcp.c:543-557 | a fresh buffer without the acknowledged prefix, exactly when the source compacts |
| SenderSocket.Sender.DuplicateAck | src/tju_tcp.c:458-490 | congestion state and flags after an ACK equal to base |
| SenderSocket.Sender.OldOrDuplicateAck | src/tju_tcp.c:446-490 | state after an ACK at or below base |
| SenderSocket.Sender.GrowWindow | src/tju_tcp.c:495-517 | congestion state after a new ACK |
| SenderSocket.Sender.MeasureRtt | src/tju_tcp.c:519-525 | the sample is used iff this is the awaited ACK; the measurement ends in any case |
| SenderSocket.Sender.AdvanceBase | src/tju_tcp.c:527-529 | ack_cnt and base move together, whatever the ACK |
| SenderSocket.Sender.RestartTimer | src/tju_tcp.c:531-541 | stop when everything sent is acknowledged, else restart |
| SenderSocket.Sender.AdvanceWindow | src/tju_tcp.c:495-541 | a new ACK up to the point where send_lock is needed |
| SenderSocket.Sender.CheckZeroWindow | src/tju_tcp.c:560-565 | a closed window starts the probe timer and clears is_retransing |
| SenderSocket.Sender.HandleAck | src/tju_tcp.c:443-566 | the whole ACK branch for any ACK whose clean-up does not wrap |
| Reassembly.RunLengthMaximal | src/tju_tcp.c:681-687 | the delivered length is the maximal contiguous prefix |
| Reassembly.RunLengthBound | src/tju_tcp.c:380-410 | the prefix is at most 43999 bytes, so the advertised window stays positive |
| Reassembly.HandleDataOk | src/tju_tcp.c:374-439 | any segment keeps the window invariant; expect_seq never falls; the reply advertises 1..44000 |
| Reassembly.DeliverLaw | src/tju_tcp.c:386-415 | all of the maximal prefix is delivered or nothing, the latter only if it is empty or would overflow received_buf |
| Reassembly.NothingLost | src/tju_tcp.c:374-415 | every held byte stays held or is delivered at its own position; without room nothing moves |
| Arrival.ArrivalKeeps | src/tju_tcp.c:374-415 | after any segment each position has the byte of the segment if the window takes it, else the byte held before, pending or delivered in place; nothing else appears |
| Arrival.ArrivalDelivers | src/tju_tcp.c:386-415 | with n bytes known in a row, all n are delivered and 44000 advertised, or none for lack of room and 44000 - n advertised |
| Arrival.OldIgnored | src/tju_tcp.c:374 | a segment below expect_seq changes nothing |
| Arrival.EitherOrder | src/tju_tcp.c:374-415 | the next two segments end in the same state in either order of arrival |
| Reassembly.StoresCommute | src/tju_tcp.c:380-384 | the order in which agreeing segments arrive does not matter |
| Reassembly.StoreRefines | src/tju_tcp.c:380-384 | copying and marking in the arrays adds the segment to the map |
| Reassembly.ShiftRefines | src/tju_tcp.c:402-410 | shifting down with zeroed marks drops the prefix from the map |
| Reassembly.ScanRefines | src/tju_tcp.c:387-400 | the scan of the marks is the run length of the map, the copied bytes are its prefix |
| ReceiverWindow.GetWndFreeLen | src/tju_tcp.c:681-687 | with mark[43999] = 0 the scan stops inside the array at the first zero mark, a value that fits uint16 |
| ReceiverWindow.ShiftDown | src/tju_tcp.c:403-409 | a fresh array holding what lay behind the prefix |
| ReceiverWindow.Receiver.constructor | src/tju_tcp.c:28-65 | an empty window expecting byte 1 |
| ReceiverWindow.Receiver.StoreSegment | src/tju_tcp.c:374-384 | the arrays hold the segment, or are unchanged if it reaches the end of the window |
| ReceiverWindow.Receiver.AppendReceived | src/tju_tcp.c:396-400 | the prefix is appended to received_buf |
| ReceiverWindow.Receiver.ShiftWindow | src/tju_tcp.c:402-410 | fresh arrays represent the rest of the map, expect_seq advanced |
| ReceiverWindow.Receiver.Advance | src/tju_tcp.c:386-415 | delivery over the arrays is delivery over the map |
| ReceiverWindow.Receiver.HandleData | src/tju_tcp.c:370-440 | the data branch for any segment, with the ACK it sends |
| ReceiverWindow.Receiver.DropFront | src/tju_tcp.c:267-275 | what is left of received_buf after a read |
| ReceiverWindow.Receiver.CopyOut | src/tju_tcp.c:265 | the front bytes go to the caller's buffer, the rest of it untouched |
| ReceiverWindow.Receiver.TjuRecv | src/tju_tcp.c:250-281 | one turn: nothing while nothing has been received, else the front bytes, no more than asked for, the rest in order |
| Interleaved.EndToEnd | src/tju_tcp.c:370-427 | bytes read, then bytes waiting, are exactly the first expect_seq - 1 bytes accepted, in every interleaved run |
| Interleaved.SenderCoupling | src/tju_tcp.c:527-557 | offsets, sequence numbers and buffer contents agree, nextseq lagging inside a burst only; base <= expect_seq; no ACK ahead of the receiver |
| Interleaved.SegmentsTrue | src/timer.c:132-167 | every data segment ever sent carries the stream bytes its number names |
| Interleaved.ResendNamed | src/timer.c:132-167 | one step of a pass sends the bytes its number names however far ACKs have slid the window |
| Interleaved.InterleavedPass | src/timer.c:115-172 | the same for every reachable interleaving |
| Interleaved.SafeStep | src/tju_tcp.c:226-281 | every interleaved step keeps the safety invariant |
| Interleaved.SafeCompact | src/tju_tcp.c:543-557 | compaction keeps the buffer a suffix of the stream |
| Interleaved.SafeBurstOne | src/timer.c:37-79 | a step of the first-send loop keeps it, on a stale snapshot and with nextseq unpublished |
| Interleaved.BurstNamed | src/timer.c:37-79 | that step sends the bytes its number names |
| Interleaved.InterleavedBurst | src/timer.c:37-79 | the same for every reachable interleaving |
| Interleaved.AckArrivesFrame | src/tju_tcp.c:446-541 | where an ACK leaves offsets, numbers, congestion state and estimator, whoever holds the lock |
| Interleaved.DeliverTrue | src/tju_tcp.c:386-415 | delivery hands over stream bytes only, in order |
| Interleaved.PacketsFitWire | src/tju_packet.c:40-54 | while the stream is below 2^32 every packet sent is encodable and nothing wraps |
| InterleavedWakeup.WakeStep | src/timer.c:88-175 | a step keeps the wake-up iff it is harmless, for every kind of step |
| InterleavedWakeup.NoLostWakeupInterleaved | src/timer.c:20-206 | in every interleaved run: every state has its wake-up iff every step is harmless |
| InterleavedWakeup.OnlyFourRaces | src/timer.c:20-206 | with armable intervals the harmful steps are exactly the late expiry in a pass, the stale segment, the ACK of everything published and the wiping recheck |
| InterleavedWakeup.NoLostWakeupArmable | src/timer.c:20-206 | in every interleaved run with armable intervals: every state has its wake-up iff none of the four occurs |
| InterleavedWakeup.OrderlyKeepsWakeup | src/timer.c:20-206 | no expiry inside a pass, no new ACK between snapshot and end of burst, no ACK between the looks of retrans_thread: no wake-up is lost |
| RecheckRace.RecheckBlocksForever | src/timer.c:105-112 | a legal run after which no continuation sends another byte |
| Atomic.AtomicIsInterleaved | src/timer.c:115-172 | a run of whole bodies is an interleaved run with the same result |
| Atomic.PassRuns | src/timer.c:137-167 | an undisturbed pass, step by step, is the closed form |
| Atomic.BurstRuns | src/timer.c:37-82 | an undisturbed burst, step by step, is the closed form |
| RunInvariants.FlowControl | src/timer.c:25-38 | at most 44000 unacknowledged bytes; segments end by expect_seq + 44000 and are refused exactly when they end there |
| InterleavedFlow.FlowStep | src/timer.c:25-79 | a step keeps flow control iff it is not a first-sent segment ending beyond ack_cnt + 44000 |
| InterleavedFlow.FlowControlInterleaved | src/timer.c:25-79 | in every interleaved run: at most 44000 bytes outstanding and segments ending by base + 44000 in every state iff every first-sent segment fits |
| InterleavedFlow.FlowControlTaken | src/timer.c:30-36 | a run keeps it if every burst is within the window when it takes the lock |
| InterleavedFlow.UndisturbedBurst | src/timer.c:30-82 | from every state an undisturbed burst keeps it iff it is within the window when it takes the lock |
| InterleavedFlow.TakenIff | src/timer.c:30-82 | from every state all continuations up to the next burst keep it iff the burst is within the window when it takes the lock |
| InterleavedFlow.FlowControlUnmoved | src/timer.c:25-38 | a run that never compacts under a pending snapshot keeps it, with the exact refusal point at the receiver |
| Overrun.StaleCompactionOverruns | src/timer.c:30-38 | after a compaction between snapshot and burst all waiting data goes out unacknowledged, whatever the window |
| RunInvariants.CongestionTrace | src/tju_tcp.c:445-517 | the congestion state of a run is a run of the congestion machine |
| RunInvariants.CongestionInRuns | src/tju_tcp.c:445-517 | the closed form in every run of the system |
| RunInvariants.SlowStartInRuns | src/tju_tcp.c:498-506 | the doubling law in every run of the system |
| RunInvariants.FastRetransmitOnceInRuns | src/tju_tcp.c:458-485 | at most one fast retransmit in any stretch without a window-advancing ACK |
| RunInvariants.ClosedWindowReopens | src/tju_tcp.c:458-490 | a closed window reopens after exactly Needed, at most four, duplicates in every reachable state |
| RunInvariants.WakeStep | src/timer.c:88-206 | a step keeps the three wake-up clauses iff its timer starts leave the timer running |
| RunInvariants.NoLostWakeup | src/timer.c:88-206 | unacknowledged bytes have a timer or RETRANS, is_retransing is never raised for nothing, a closed window is being probed: in every state of a run iff every timer start succeeds or finds the timer running |
| RunInvariants.NoLostWakeupBounded | src/timer.c:177-227 | the same for every run whose samples lie in bounds that keep the RTO below a second |
| SendingLaws.SendsIff | src/timer.c:25-28 | the sending thread sends iff it is not held back, fewer bytes than the window are outstanding and the stream has more |
| SendingLaws.BurstFills | src/timer.c:35-84 | a burst sends exactly the next bytes of the stream until the window is full or nothing is left |
| SendingLaws.PassResends | src/timer.c:132-167 | a pass sends exactly the bytes sent and not acknowledged |
| SendingLaws.IdleSends | src/timer.c:92-113 | a closed window is probed with an empty segment at base - 1; a recheck sends nothing |
| SendingLaws.BurstFlags | src/timer.c:69-74 | flags and timer after a burst |
| SendingLaws.RetransFlags | src/timer.c:91-171 | flags and timer after a probe, a recheck, a pass |
| SendingLaws.AckFlags | src/tju_tcp.c:472-565 | flags and timer after any ACK |
| SendingLaws.HeldBackInRuns | src/timer.c:25-74 | after the first burst of a window no other follows before a pass, an ACK of everything or a closed window |
| SendingLaws.PassCutsIffExpired | src/timer.c:118-130 | a pass cuts the window iff the timer has expired and not been started since |
| Measurement.MeasurementPending | src/timer.c:62-67 | in every run what is waited for is the end of a segment in the network, behind base and not beyond nextseq |
| Measurement.EstimatorTrace | src/tju_tcp.c:519-525 | the estimator of a run has been fed exactly the samples of ACKs that end at the measured segment |
| Measurement.RoundTripMeasured | src/timer.c:62-67 | from every reachable state with nothing outstanding, data of any length: the ACK of the first segment feeds its round trip |
| Progress.KickWorks | src/timer.c:104-113 | with the timer running or RETRANS up, expiry and recheck bring the thread to the start of a pass, changing flags only |
| Progress.ReplyAboveBase | src/tju_tcp.c:374-439 | any segment that starts at base is answered with an ACK above base, also when earlier ACKs were lost |
| Progress.RoundAdvances | src/timer.c:104-172 | one loss-free round can take place iff the timer runs or RETRANS is up, and then strictly increases base |
| Progress.ProgressFromReachable | src/timer.c:104-172 | the same from every reachable state with unacknowledged bytes, an open window and 43999 free bytes at the receiver |
| Progress.ProgressRearming | src/timer.c:104-172 | so the round takes place in every run whose timer starts succeed or find the timer running |
| Completion.ProbeCycle | src/timer.c:92-102 | with everything else lost, the zero-window probe and its reply move base or bring the window one duplicate closer to open |
| Completion.Advance | src/timer.c:23-175 | while accepted bytes are unacknowledged base can be moved forward by packets sent from now on |
| Completion.NeverStuck | src/timer.c:23-175 | every state of a run with armable intervals has, with every packet under way lost, a continuation that delivers and acknowledges everything accepted so far |
| Completion.DeadNeverCompletes | src/timer.c:23-175 | without timer, RETRANS and a way to send more, no continuation does once the packets under way are lost |
| InterleavedProgress.Settle | src/timer.c:23-175 | whatever the threads are in the middle of, they can finish it and something is still due |
| InterleavedProgress.ProgressInterleaved | src/timer.c:23-175 | from every reachable interleaved state with a wake-up due, all packets under way lost, some continuation raises base |
| Connection.Link.constructor | src/tju_tcp.c:12-72 | fresh objects in the initial world |
| Connection.Link.Send | src/tju_tcp.c:226-249 | the objects follow the model step |
| Connection.Link.SendingThread | src/timer.c:20-87 | the objects follow the model step; the packets emitted are those added to the network |
| Connection.Link.RetransThread | src/timer.c:88-175 | the objects follow the model step; the packets emitted are those added to the network |
| Connection.Link.TimerExpires | src/timer.c:202-206 | the objects follow the model step |
| Connection.Link.AckArrives | src/tju_tcp.c:443-566 | any ACK in the network can be handled and the objects follow the model step |
| Connection.Link.DataArrives | src/tju_tcp.c:370-440 | the objects follow the model step; the reply is the packet added to the network |
| Connection.Link.Recv | src/tju_tcp.c:250-281 | the bytes put into the caller's buffer are those added to read |
| Connection.Link.BuffersHoldStream | src/tju_tcp.c:370-427 | received_buf, sending_buf and every marked cell of recv_buf hold the stream bytes of their positions |
| Races.SlowRoundTrip | src/timer.c:182-190 | after one measured round trip of any length the next byte keeps a timer iff it was below a second |
| Races.SlowRoundTripStuck | src/timer.c:182-190 | and otherwise, its packet lost, no continuation delivers it |
| Races.ExpiryInsidePassStrands | src/timer.c:158-171 | an expiry inside a pass is lost when the pass lowers RETRANS |
| Races.StaleSnapshotStrands | src/timer.c:30-74 | a burst on an outdated snapshot leaves its bytes without a timer |
| Races.UnpublishedAckStrands | src/tju_tcp.c:531-535 | an ACK of everything published, arriving inside a burst, stops the timer of the bytes behind it |
| TornPass.SoundStep | src/timer.c:132-167 | a step keeps the numbering of a pass right iff it is not a torn read |
| TornPass.NumberedIffNeverTorn | src/timer.c:132-167 | in every run the segments of all passes are numbered by their bytes iff no read is torn, and then the stream is delivered exactly |
| TornPass.TornPassDuplicates | src/timer.c:133-135 | an ACK between the reads of ack_cnt and base makes the receiver deliver a byte twice |
| TornPass.ToothlessIgnored | src/tju_tcp.c:370-374 | if the last segment on a torn base is numbered below expect_seq, no later receiver takes any of them |
| TornPass.BehindOneSegment | src/timer.c:133-135 | which is so for a base that is behind with one segment to resend |
| SynQueue.QueueCounters | src/syn.c:12-99 | after any operations the counters equal the occupied slots, occupants sit at their hash in their state, and a positive accept_num means the scan finds one |
| SynQueue.PromoteKeeps | src/tju_tcp.c:320-333 | moving a socket between the queues keeps all that; the early exit on syn_num = 0 changes nothing |
| SynQueue.EnSynLaw | src/syn.c:40-56 | slot by slot: a free slot is taken, an occupant stays |
| SynQueue.PromoteLaw | src/tju_tcp.c:320-333 | slot by slot: the half-open occupant leaves, and is ESTABLISHED in the accept queue unless that slot is taken |
| SynQueue.TakeLaw | src/syn.c:23-38 | slot by slot: the lowest occupied slot is emptied |
| SynQueue.OccupantsStay | src/syn.c:40-99 | over any operations an occupant stays until promoted or taken, whoever else hashes to its slot |
| SynQueue.AcceptFinds | src/syn.c:23-38 | the scan cannot fall through to NULL while accept_num is positive |
| SynQueue.SynQueues.constructor | src/syn.c:12-21 | empty queues, zero counters |
| SynQueue.SynQueues.EnSyn | src/syn.c:40-56 | the slot is taken if free, else nothing happens |
| SynQueue.SynQueues.EnAccept | src/syn.c:58-71 | the slot is taken if free, else nothing happens |
| SynQueue.SynQueues.TakeSyn | src/syn.c:73-99 | the occupant of the packet's slot, removed, or NULL |
| SynQueue.SynQueues.HandleThirdAck | src/tju_tcp.c:320-333 | the third handshake packet promotes the occupant of its slot |
| SynQueue.SynQueues.RemoveAccept | src/syn.c:28-34 | an occupied slot is emptied and counted down |
| SynQueue.SynQueues.TakeAccept | src/syn.c:23-38 | the first occupied slot in index order, NULL iff the counter is zero |
| Handshake.HandshakeSafe | src/tju_tcp.c:114-130 | a connected client's SYN was handled; registered sockets are ESTABLISHED at their own hash; no socket waits in the accept queue for a registered slot |
| Handshake.ServerTable | src/kernel.c:22-37 | registered slots' packets never reach the listener, any other SYN is answered and queued, accepting registers, closing frees the slot |
| Handshake.AcceptedIffApart | src/tju_tcp.c:286-333 | waiting sockets belong to connected clients in every run iff no two clients share a slot |
| Handshake.CollisionRuns | src/syn.c:45-54 | the run in which one client's ACK promotes another client's socket |
| SplitAccept.BackToBack | src/tju_tcp.c:118-130 | taking and registering back to back is the accept of the handshake model |
| SplitAccept.SplitAcceptSafeIff | src/tju_tcp.c:118-130 | in every run no second socket waits for a registered slot iff no registration finds its slot refilled |
| SplitAccept.SplitAcceptDoubles | src/tju_tcp.c:118-130 | a duplicated SYN and ACK between the two steps make tju_accept return a second socket for the slot |
| SplitAccept.OldHandshakeAccepted | src/tju_tcp.c:666-668 | after a close, copies of the old SYN and ACK make tju_accept return another socket |
| Close.Endpoint.TjuClose | src/tju_tcp.c:630-651 | FIN and FIN_WAIT_1 for the active side, nothing for the passive one |
| Close.Endpoint.HandlePacket | src/tju_tcp.c:579-625 | state and reply for every packet of a close |
| Close.Endpoint.SleepOver | src/tju_tcp.c:347-358 | the third packet after CLOSE_WAIT, CLOSED after TIME_WAIT |
| Close.Endpoint.Act | src/tju_tcp.c:579-662 | one call, packet, wake-up or resend at an endpoint |
| Close.StepTable | src/tju_tcp.c:579-625 | exactly the listed transitions change the state, each with its answer; anything else is dropped unanswered |
| Close.WaitsBeforeClosed | src/tju_tcp.c:605-609 | who called tju_close first waits in TIME_WAIT before it is CLOSED |
| Close.ResendRepeats | src/tju_tcp.c:655-661 | until CLOSED the FIN repeated is the one sent: FIN for the caller, FIN and ACK for the called |
| Close.Release.constructor | src/tju_tcp.c:630-651 | two endpoints before the close |
| Close.Release.Perform | src/tju_tcp.c:579-662 | the endpoint objects and channels follow the model step |
| Close.Release.ObjectsMatch | src/tju_tcp.c:579-625 | so the peer-state and drained-means-closed laws hold of the objects at any time |
| Close.CloseStates | src/tju_tcp.c:579-625 | FIN_WAIT_2 faces CLOSE_WAIT or LAST_ACK; CLOSED faces LAST_ACK, CLOSING, TIME_WAIT or CLOSED; any closing order, any number of resent FINs |
| Close.DrainedMeansClosed | src/tju_tcp.c:335-367 | once a close has begun, empty channels and nobody asleep mean both sides are CLOSED |
| Close.DrainCloses | src/tju_tcp.c:630-662 | every maximal drain, in any order, is finite and takes both sides to CLOSED |

## Left out

- SenderSocket.Sender.HandleAck: an ACK whose clean-up would subtract ack_cnt from a smaller have_send_len is excluded; the source is left with a negative have_send_len, or copies with a wrapped length.
- SenderCore.HandleAckFrame: the same ACKs are excluded.
- SenderSocket.Sender.CleanSendingBuf: the same clean-up is excluded.
- ReceiverWindow.Receiver.TjuRecv: a negative length is excluded; the source passes it to memcpy.
- Interleaved.SafeStep: one segment of a loop, with its measurement, its timer and its have_send_len, is one step, and so are an ACK handler up to its clean-up and the recheck of retrans_thread.
- TornPass.SoundStep: only the two locals of a pass are read apart; everything else of the handler is stored with ack_cnt.
- UDP sockets, receive_thread, sendToLayer3 and the hash of addresses: replaced by a set of packets or FIFO channels and an arbitrary hash.
- create_packet and free_packet: the intermediate struct is a value here.
- syn_retrans_thread: never started by the source.
- Several connections on one listener: the source copies the listener's buffer pointers into each socket; each connection here has its own.
- Data transfer in both directions at once and data still in flight during a close: one direction, and closes start with quiet channels.
- Liveness of handshake and close under loss: the source does not provide it.
- Sequence number wrap-around and overflow of cwnd: numbers are unbounded.
- Real time, pthreads, malloc and free, logging, client and server programs, plotting scripts.
