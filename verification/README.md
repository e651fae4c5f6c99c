# iperf-go: the control protocol, the rate controller and the accounting

iperf-go runs a client and a server that measure the throughput between them. They agree on a test over one TCP control
connection, move data over a number of streams, and at the end exchange what each side counted. This project models that
core and proves what it promises.

**The session** (`Session*.dfy`, `Framing.dfy`). Both sides are sets of goroutines: a main loop, a reader of control messages
and one goroutine per stream, plus the client's timer and the exit of the client process. `Session` is a transition system
whose actions are the atomic steps of these goroutines; a run is any interleaving, for any number of streams, in either
direction. `setSendState` is three steps (assign, enqueue on the sender's own 5-slot `ctrlChan`, write), so the redundant
values it puts there are all present. A stream's loop has its tick or its blocking read, its throttle, its last test and its
deadline, so a sender of a test without duration never stops, a receiver with nothing to read never gets to look at the end of
the test, and a stream whose tick or read comes after its deadline returns without a word. The timer may fire before it has
been stored, as it can in the code.

`SessionInvariant` and `SessionSteps` hold the inductive invariant, `SessionData` the accounts of bytes, `SessionSafety` what
every reachable state satisfies, `SessionEnding` what the end of the test means for each stream, and `SessionProgress` the bound
on the control steps of any run. When a session can fail to complete is settled exactly: `SessionStreams` and `SessionFate` carry
every session with healthy settings to completion from wherever it is; `SessionTraps` has ten kinds of state no run ever leaves,
`SessionHanging` drives a session into each that needs driving where its settings allow it, `SessionIdle` has the session of no
streams; and `SessionVerdict` puts them together, once through the predicates of the model and once in seconds, bytes and
figures. A goroutine that panics is one that takes no further step.

`Framing` runs the same goroutines over two byte streams, with 4-byte little-endian states read over the handler's kept
buffer, unframed parameters and length-prefixed results, where what was written arrives in pieces of any size. It proves when
that is the frame-by-frame session, and exactly which reads lead it astray.

**The loops** (`SendLoop.dfy`, `RecvLoop.dfy`). N concurrent `iperfSend`s or `iperfRecv`s with the statements on shared state
as separate events. The rate comparison is multiplied out: `8 * bytes * 10^9` against `rate * elapsed` in nanoseconds. The
classes run one goroutine's loop statement by statement and are proved to be runs of these events.

**The statistics** (`StreamResults.dfy`, `StreamHistory.dfy`, `Results.dfy`). `StreamResult` is the mutable record behind a
stream; its methods are proved against functions on its value, and the functions against sums, differences and extrema of the
whole history, with 64-bit wrap-around.

**The tickers** (`Tickers.dfy`, `Handshake.dfy`). The bounded callback loop, and the one-slot channel between statistics passes
and reports.

Findings worth knowing, each proved below:

- Without limits, with deadlines judged by clocks that start together and tick on time, and with statistics and report callbacks
  that return, a session can come to a state from which it never completes for exactly these settings:
  - no streams (`-P 0`);
  - a protocol without code (`-proto udp`): the client asks it for its name and panics;
  - blocks of 2^48 bytes or more (`-l`), whose buffer cannot be had;
  - an interval of zero, or too long for a ticker (`-i 0`);
  - a sender's ticker whose period, computed in 64 bits, is not positive (a rate above 10^9 blocks a second);
  - a test without length (`-d 0`, or one of centuries, which overflows): in forward mode no sender of `-d 0` ever notices its
    end, and in either direction the timer can fire before it is stored, and then blocks for good without ending the test (in
    reverse mode, if nothing else is wrong, it hangs in that case only);
  - no tick of the sender between the end of the test and the deadline of the streams: five seconds later over TCP (`-b 8K` with
    the other settings at their defaults ticks every 16 seconds), a minute after the start over RUDP and KCP, so that a test of a
    minute is too long for them. A reader of empty blocks over TCP (`-R -l 0`) needs no tick;
  - in reverse mode, a rate of zero (`-R -b 0`) with blocks that are not empty, where a receiver waits for a second block, or
    empty blocks over RUDP or KCP, where it waits for a first;
  - five streams or more, unless they send empty blocks forward over RUDP or KCP. The server's main loop waits for its handler,
    the handler for a slot for its last IPERF_DONE, and five late TEST_ENDs fill the channel.
- The callbacks do not always return: the last statistics pass can hang on `chStats` when the statistics ticker has called back
  more often than the report ticker, by one or by more. With tickers on time a test can end so if and only if it holds two
  intervals or more, which includes the default settings.
- A state of which one `Read` finds only a part is still decoded rightly, from the kept buffer, but its other bytes are taken for
  the start of the next message, and that is misread. A session goes astray exactly when a `Read` for the parameters, or for a
  state that is not the last one its side reads, finds only part of it, which can happen under any settings; the
  length-prefixed results survive any splitting.
- With a bandwidth of zero (`-b 0`, given explicitly) a stream sends one block and never again.
- A stream with `duration` zero, or in burst mode, is not held to the rate.
- When a test leaves TEST_RUNNING its receive counter misses exactly the reads caught between a stream's two looks at the
  state; the repository's test of the running phase takes the counters to be equal.

## Model

| member | source | states |
|---|---|---|
| SessionSteps.StepKeepsInv | pkg/iperf/iperf_server.go:215-411 | every atomic step of every goroutine keeps the invariant that ties program points, channel contents, counters and connection together |
| SessionSteps.ReachableInv | pkg/iperf/iperf_client.go:246-317 | that invariant holds in every state of every session, for any number of streams |
| SessionSteps.NoGarbage | pkg/iperf/iperf_server.go:38-44 | a reader that finds a message finds one of the kind it waits for |
| SessionSteps.Causality | pkg/iperf/iperf_client.go:134-221 | how far each side can be, given what the other has written and read: for instance the client reads EXCHANGE_RESULT only after the server has read its TEST_END |
| SessionSafety.NothingUnexpected | pkg/iperf/iperf_client.go:281-290 | in every reachable state nothing was misread, no handler met a state it has no case for, no result is out of range, and "more TEST_END than expected" was never reached |
| SessionSafety.WritersExclude | pkg/iperf/iperf_api.go:41-59 | main loop and handler of a side never write at the same time, and the parameters are alone in the stream when the server reads them |
| SessionSafety.EndOfTestOnce | pkg/iperf/iperf_client.go:281-307 | the client writes TEST_END at most once, as its second message, and only when all of its stream goroutines have returned; the server is done only after that |
| SessionSafety.ClientChannelAfterQuorum | pkg/iperf/iperf_client.go:97-129 | once all streams have posted, the client's channel is empty when the main loop makes its redundant push, and never holds more than four values after it, so nobody blocks on it |
| SessionSafety.PhasesInOrder | pkg/iperf/iperf_server.go:247-379 | each step leaves each side in its phase or takes it to the very next one of the protocol |
| SessionSafety.RunningOnce | pkg/iperf/iperf_api.go:615-623 | a side that has left TEST_RUNNING never returns to it, over any run |
| SessionSafety.ReadyBeforeData | pkg/iperf/iperf_server.go:299-331 | a client stream is started only when both sides hold all N streams in opposite roles and agree on N; before the end of the test the server is at most two messages ahead |
| SessionData.StepKeepsAccounts | pkg/iperf/iperf_api.go:220-351 | every step keeps the accounts of bytes, reports, imports and interval sums |
| SessionSafety.BytesConserved | pkg/iperf/iperf_tcp.go:57-110 | per stream, in either direction, bytes written are in flight, counted, or read after TEST_RUNNING |
| SessionSafety.ResultsAgree | pkg/iperf/iperf_api.go:332-351 | after the exchange both sides hold the same sent and received counts for every stream, modulo 2^64 as the fields hold them and exactly below that, and nothing was received that was not sent |
| SessionSafety.IntervalsAddUp | pkg/iperf/iperf_api.go:905-932 | at any time the interval results of every stream and the interval under way hold all the bytes the stream has moved; at the exchange the client reports the sums of its interval results, and so does the server in forward mode; in reverse mode the server reports what it sent |
| SessionSafety.CompleteSession | pkg/iperf/iperf_client.go:269-316 | a finished session has sent TEST_END, agreed on the parameters, returned from all client streams and agreed on the counts |
| SessionEnding.StopsAtTheEnd | pkg/iperf/iperf_api.go:625-686 | in every reachable state a stream of either side that posts, or has posted, belongs to a test that is done, and as a sender to one with a duration (a client's sender may also have met a limit); a stream has failed only after the server closed it or past a deadline it cannot meet, over TCP only after the end |
| SessionEnding.OneMoreBlock | pkg/iperf/iperf_api.go:625-686 | once a side's test is done each of its streams makes at most one more tick or read, in any run; senders in a test with a duration |
| SessionEnding.ThrottleRests | pkg/iperf/iperf_api.go:95-98 | once a side's test is done its throttles never move again |
| SessionEnding.LateWritesFail | pkg/iperf/iperf_tcp.go:47-69 | over TCP in forward mode, where no tick falls before the deadline, nothing the client writes after the end goes out |
| SessionEnding.NothingLostBefore | pkg/iperf/iperf_tcp.go:84-110 | every byte written is in flight or counted until the server has read TEST_END, and in reverse mode always |
| SessionEnding.CountsAreFinal | pkg/iperf/iperf_server.go:58-71 | what the client counts itself is final from TEST_END on, what the server counts itself from the closing of its streams on, in any run |
| SessionEnding.Transcript | pkg/iperf/iperf.go:11-27 | the messages of a session, in order and in figures: from the server 4, 3, 31, 32, 5, length, results, 6, 2, from the client parameters, 34, length, results, 2 |
| SessionProgress.StepWorks | pkg/iperf/iperf_server.go:289-404 | every control step increases the work done; data, turns of the loops and statistics leave it alone |
| SessionProgress.RunsAreBounded | pkg/iperf/iperf_client.go:269-314 | no session takes more than 94 + 12 N control steps, for any N |
| SessionFate.Completes | pkg/iperf/iperf_server.go:289-404 | from every state of a session with a protocol, buffers and tickers that can be had, a test with a length, ticks before the deadlines, streams that flow and late TEST_ENDs that fit, some continuation completes |
| SessionTraps.CaughtHangs | pkg/iperf/iperf_api.go:602-686 | ten kinds of state that no step leaves, and from which no session ever completes: a protocol without a name, a buffer that cannot be had, an interval ticker or a sender's ticker of either side that does not start, a lost timer, senders without a duration, a stream failed at its deadline, a starved receiver, a clogged channel |
| SessionHanging.ReachStarved | pkg/iperf/iperf_api.go:604-616 | in reverse mode, with rate zero or with empty blocks over RUDP or KCP, some run leaves a receiver waiting for good |
| SessionHanging.ReachLate | pkg/iperf/iperf_tcp.go:27-54 | where no tick falls between the end of the test and the deadline some run has a stream return at its deadline without posting |
| SessionHanging.ReachUndone | pkg/iperf/iperf_client.go:34-61 | in a test without length some run loses the timer before it is stored, and never ends the test |
| SessionHanging.ReachClogged | pkg/iperf/iperf_server.go:99-116 | with five streams or more that move anything some run ends with the main loop waiting for the handler and the handler for a slot |
| SessionIdle.NoStreamsHang | pkg/iperf/iperf_client.go:281-290 | a session of no streams never completes, whatever the schedule |
| SessionVerdict.HangsIffUnhealthy | pkg/iperf/iperf_client.go:246-317 | without limits, some reachable state leads to no complete one if and only if there are no streams, the protocol has no code, a buffer or a ticker cannot be had, the test has no length, no tick falls before the deadline, the streams do not flow or the late TEST_ENDs do not fit the channel |
| SessionVerdict.HealthySessionsDeliver | pkg/iperf/iperf_client.go:246-317 | from every reachable state of a healthy session a complete one can be reached, with TEST_END sent exactly once, all client streams returned and equal counts |
| SessionVerdict.BurstVerdict | pkg/iperf/iperf_api.go:635-646 | the verdict in figures, for burst mode, which is the default, and for a rate of zero: a session can hang if and only if the stream count, the protocol's name, the block size, the interval, the duration in seconds or the direction is one of those listed |
| SessionVerdict.RateVerdict | pkg/iperf/iperf_api.go:638-646 | the verdict in figures with a rate: also if the rate is above the bits of 10^9 blocks, or no multiple of the period in nanoseconds lies between the end of the test and the deadline |
| SessionVerdict.HungIffTimerLost | pkg/iperf/iperf_client.go:34-61 | a session in which nothing else is wrong hangs in exactly those states in which the timer fired before it was stored; with a test that has a length there are none |
| SessionVerdict.WithoutLength | pkg/iperf/iperf_client.go:51-61 | for instance a reverse test over TCP of duration zero with one to four streams and the other settings at their defaults |
| Rates.PacesIffTickerStarts | pkg/iperf/iperf_api.go:638-646 | the period computed from block size and rate in 64 bits is positive, so that the ticker does not panic, exactly for the rates given |
| Rates.InTimeIffTickWithin | pkg/iperf/iperf_tcp.go:47-52 | the arithmetic test for being in time holds exactly when some multiple of the sender's period lies between the end of the test and the deadline |
| Rates.MillisecondsInTime | pkg/iperf/iperf_api.go:637 | in burst mode or at rate zero a sender over TCP ticks every 10^6 nanoseconds, and always in time |
| Rates.RateInTime | pkg/iperf/iperf_api.go:638-640 | with a rate it ticks every `8 * 10^9 * blksize / rate` nanoseconds; in time if and only if a multiple of that lies in the window, in seconds |
| Rates.EightKilobytesAreLate | pkg/iperf/iperf_api.go:638-646 | `-b 8K` with default settings ticks every 16 seconds and is late in either direction |
| Codecs.WordRoundTrip | pkg/iperf/iperf_api.go:45-46 | a word written little-endian in four bytes is read back modulo 2^32 |
| Codecs.LittleEndianInverse | pkg/iperf/iperf_server.go:39-40 | different bytes are different numbers: writing what was read gives the bytes back |
| Codecs.CodecsExist | pkg/iperf/iperf_api.go:141-173 | for any parameters and any number of streams above zero whose results, eight bytes each, take less than 2^32 bytes, there is a codec with the properties assumed of JSON |
| Framing.ReadMatches | pkg/iperf/iperf_api.go:160-177 | a read that starts where a message does yields the message: a state from its first byte on, over the kept buffer, taking only what has arrived; a length or results once they have arrived whole; but parameters of which only part has arrived do not decode |
| Framing.ParamsFitIff | pkg/iperf/iperf_api.go:160-173 | parameters that have arrived whole are read whole if and only if they take at most 1024 bytes; longer ones never decode |
| Framing.AstrayIffHasty | pkg/iperf/iperf_server.go:28-44 | however the bytes arrive, a session has misread a message, or has left bytes of a state behind on a side that has more to read, if and only if some `Read` for the parameters, or for a state that is not the last its side reads, found only part of it |
| Framing.HasteIsMisread | pkg/iperf/iperf_client.go:131-140 | whatever a side reads next after leaving bytes of a state behind, it misreads |
| Framing.FramesExplainBytes | pkg/iperf/iperf_api.go:249-310 | until something is misread a run over bytes is a run over frames, also after a state was read in haste |
| Framing.FramesAreRealised | pkg/iperf/iperf_client.go:131-144 | every run over frames is one over bytes, without haste |
| Framing.CompletesIffNoHaste | pkg/iperf/iperf_client.go:131-144 | a session over bytes with healthy settings can still complete with everything read as written if and only if it has not read in haste, and after haste it can be carried to a misreading |
| Framing.StateSplits | pkg/iperf/iperf_client.go:131-144 | a state of which one, two or three bytes have arrived is read, decoded rightly and acted on, and the next state is misread, under any settings with a protocol there is code for |
| Framing.ParamsSplit | pkg/iperf/iperf_api.go:160-178 | parameters of which any proper part has arrived can be read, and do not decode |
| SendLoop.NeverAhead | pkg/iperf/iperf_api.go:95-115 | for governed settings a stream is never more than one block ahead of its rate, for any ticks, partial writes and interleaving |
| SendLoop.PacedIffGoverned | pkg/iperf/iperf_api.go:635-687 | the one-block bound holds in every run if and only if the settings are governed: a ticker that does not start, at most one write, or no burst and a duration; with writes of whole blocks, and with writes of any size |
| SendLoop.OneBlockIffStalls | pkg/iperf/iperf_api.go:672-686 | no stream ever sends more than one block if and only if the ticker does not start, the block is empty, the first write reaches a limit, or the rate is zero, checked, and the test has a duration |
| SendLoop.IdealTicksTrack | pkg/iperf/iperf_api.go:635-674 | after every ideal tick the bits due and not sent lie above minus the rate of one nanosecond and at most at one interval's worth |
| SendLoop.TracksTheRate | pkg/iperf/iperf_api.go:638-644 | the same from the start of the test, with the floor-divided ticker period: forever within one block |
| SendLoop.CountersAddUp | pkg/iperf/iperf_api.go:662-663 | with N senders the test's counters are the streams' totals less what is not yet added, at most one block each |
| SendLoop.OvershootBounded | pkg/iperf/iperf_api.go:676-684 | N senders pass a byte limit by less than N blocks and a block limit by less than N |
| SendLoop.SendingTest.CheckThrottle | pkg/iperf/iperf_api.go:95-115 | sending is on afterwards if `8 * 10^9` times the bytes sent is below rate times elapsed nanoseconds, off if above, and as before if they are equal or the test is done; nothing else changes |
| SendLoop.SendingTest.IperfSend | pkg/iperf/iperf_api.go:635-687 | the loop of one stream has the effect of its events, tick by tick; without limits and failed writes it returns if and only if its ticker starts, it ticks, and a test with a length is done by one of its ticks, in burst mode or not; with limits it returns when it must and not before |
| SendLoop.PostedIsOver | pkg/iperf/iperf_api.go:676-684 | in every run of N senders a stream has posted only in a test with a duration that is done, or at a limit |
| SendLoop.OneMoreTick | pkg/iperf/iperf_api.go:676-684 | once a test with a duration is done each stream takes at most one more tick, in any run |
| SendLoop.LoopIsRun | pkg/iperf/iperf_api.go:649-686 | what the loop reaches the machine of N senders reaches, so the bounds above hold of it |
| RecvLoop.CountersWithinOneBlock | pkg/iperf/iperf_api.go:602-632 | with N receivers the test's counter is never ahead of the streams' and at most one block per stream behind |
| RecvLoop.CountersAgreeRunning | pkg/iperf/iperf_api.go:618-623 | in a running test the counters agree whenever no stream is under way |
| RecvLoop.CountersAgreeIff | pkg/iperf/iperf_api.go:618-623 | a test that leaves TEST_RUNNING comes to rest lacking exactly the bytes of the reads then caught between their two looks at the state, so the counters agree if and only if none was caught with bytes |
| RecvLoop.OneBlockCanBeMissed | pkg/iperf/iperf_api.go:618-619 | a run in which they differ by a full block |
| RecvLoop.ReceivingTest.IperfRecv | pkg/iperf/iperf_api.go:602-632 | the loop of one stream has the effect of its events, read by read; it returns if and only if it reads and the test was done on entry, ends during one of its reads, or a read fails, and in the last case without posting |
| RecvLoop.PostedIsDone | pkg/iperf/iperf_api.go:625-630 | in every run of N receivers a stream has posted only in a test that is done |
| RecvLoop.OneMoreRead | pkg/iperf/iperf_api.go:625-630 | once the test is done each stream makes at most one more read, in any run |
| RecvLoop.BytesAreReads | pkg/iperf/iperf_tcp.go:84-110 | a stream's counter is the sum of its reads up to the moment the test leaves TEST_RUNNING, and of no others |
| RecvLoop.BlocksAddUp | pkg/iperf/iperf_api.go:618-621 | the test's count of blocks, those on their way and the missed ones, at most one per stream, are the reads the streams have counted |
| RecvLoop.LoopIsRun | pkg/iperf/iperf_api.go:604-631 | what the loop reaches the machine of N receivers reaches |
| StreamResults.StreamResult.Send | pkg/iperf/iperf_tcp.go:57-77 | a write adds to both byte counters, a failed one to neither |
| StreamResults.StreamResult.Recv | pkg/iperf/iperf_kcp.go:104-133 | a read adds to both byte counters while the test is running, and to neither otherwise |
| StreamResults.StreamResult.SummarizeRtt | pkg/iperf/iperf_tcp.go:139-148 | minimum, maximum, sum and count of round trips, with zero as no sample |
| StreamResults.StreamResult.TakeTcpSample | pkg/iperf/iperf_tcp.go:127-152 | a TCP sample becomes the gain since the last one, and moves the retransmissions and round trips only |
| StreamResults.StreamResult.TakeSegmentSample | pkg/iperf/iperf_rudp.go:198-261 | an RUDP or KCP sample moves four cumulative counters and replaces the packet counters |
| StreamResults.StreamResult.RecordInterval | pkg/iperf/iperf_api.go:907-931 | a statistics pass appends one interval and starts the next |
| StreamResults.IperfStatsCallback | pkg/iperf/iperf_api.go:905-932 | every stream is recorded once |
| StreamHistory.BytesAddUp | pkg/iperf/iperf_api.go:923-931 | over any history the intervals and what has moved since add up to the stream's total, and that to the bytes moved, modulo 2^64 and exactly below it |
| StreamHistory.BytesAddUpAtPass | pkg/iperf/iperf_api.go:929-931 | right after a pass the intervals alone are the total |
| StreamHistory.DirectionsAreApart | pkg/iperf/iperf_tcp.go:57-110 | over any history and in either role writes count as sent, reads of a running test as received, and neither as the other, in the totals and in the interval under way |
| StreamHistory.IntervalsShow | pkg/iperf/iperf_api.go:907-922 | everything interval k says but its bytes is determined by the clock, sample k and the sample before; the retransmission timeout is the sample's over TCP and RUDP, zero over KCP |
| StreamHistory.TimeIsTiled | pkg/iperf/iperf_api.go:910-920 | the intervals run without gap or overlap from the start of the test to the last pass, and their durations add up |
| StreamHistory.CountersTelescope | pkg/iperf/iperf_rudp.go:214-232 | for any samples each counter of a stream and the sum of its intervals are the last sample modulo 2^64 |
| StreamHistory.RisingCountersAreExact | pkg/iperf/iperf_tcp.go:133-137 | samples that never fall give true differences and a true sum |
| StreamHistory.RisingSegmentCountersAreExact | pkg/iperf/iperf_kcp.go:206-224 | the same, intervals and sums, for lost, early and fast retransmissions |
| StreamHistory.PacketsAreLast | pkg/iperf/iperf_rudp.go:235-243 | after any history each packet and segment counter is that of the last sample over RUDP and KCP, repeats over RUDP only; over TCP all stay zero |
| StreamHistory.RttSummary | pkg/iperf/iperf_rudp.go:247-258 | count and sum are exact modulo 2^64, the maximum is that of all samples, the minimum that of the samples since the last zero one |
| StreamHistory.AverageIsBetween | pkg/iperf/iperf_kcp.go:236-247 | without wrap-around the sum is at most maximum times count, and without zero samples at least minimum times count |
| Results.SendResults | pkg/iperf/iperf_api.go:220-248 | an entry per requested stream in order, each field by field what its stream holds, zero beyond the streams there are; fails exactly when there are more streams than requested |
| Results.GetResults | pkg/iperf/iperf_api.go:314-327 | takes entry i over into stream i by role; fails exactly when there are more entries than streams |
| Results.ExchangeResults | pkg/iperf/iperf_api.go:332-351 | afterwards both sides agree on bytes, retransmissions, segments, packets and recoveries of every stream, and keep all they measured themselves, their own times included |
| Tickers.Ticker | pkg/iperf/timer.go:46-75 | calls back on exactly the first `max_times` ticks before a stop |
| Tickers.StopEnds | pkg/iperf/timer.go:55-62 | nothing that arrives after a request to stop is called back on |
| Tickers.BudgetCounts | pkg/iperf/iperf_client.go:39-43 | in seconds and milliseconds: the budget is the whole intervals in the test less one, none at all for an interval of zero, and no limit for a test shorter than an interval |
| Tickers.IdealPasses | pkg/iperf/iperf_client.go:34-49 | with ticks on time the budget, which wraps for a test shorter than an interval, gives exactly the passes before the last: at whole intervals, and the last at 1000 milliseconds a second |
| Tickers.IdealIntervals | pkg/iperf/iperf_server.go:141-158 | such a test has `times` intervals, all of the requested length but the last, which is shorter than two |
| Handshake.ReportsFollowPasses | pkg/iperf/iperf_api.go:715-747 | in every run a report with its token finds at least as many intervals on every stream as tokens were taken, so a last one exists |
| Handshake.HowItEnds | pkg/iperf/iperf_api.go:905-934 | whether the last pass and the last report complete, and how many callers starve, by how often the two tickers called back |
| Handshake.Settles | pkg/iperf/iperf_client.go:292-300 | from the end of the test on every schedule executes at most 2 n + 10 more statements, for n streams, and goes on until it has settled |
| Handshake.OnePassAheadCanHang | pkg/iperf/iperf_server.go:58-67 | for any number of reports, one pass more can hang the last pass for good, on any number of streams |
| Handshake.LastPassCanHangIff | pkg/iperf/iperf_client.go:34-49 | with tickers on time the last pass can hang if and only if the test holds two intervals or more |

## Left out

- Sockets, name resolution, the KCP and RUDP sessions and `getsockopt`: samples, clocks and the results of reads and writes are
  parameters. The Linux build names its TCP sampler `save_tcpInfo`, other platforms `saveTCPInfo`; it is only such a source.
- The JSON encoding is any codec that brings back what a session sends, whose encoded parameters fit the 1024-byte buffer (the
  19 fields take at most some 540 bytes) and have no proper prefix that decodes, as with JSON objects, and whose results take
  less than 2^32 bytes. `CodecsExist` shows that there are such codecs.
- Framing: follows a session over bytes up to its first misread message; what the code then makes of a wrong state, length or set
  of parameters is not followed.
- I/O errors and the CLIENT_TERMINATE and SERVER_TERMINATE cases. Three failures are modelled: streams of the client at their
  deadline, streams of the server after `closeAllStreams`, and the server's handler once the client has closed the connection.
- Panics end the whole process; in the model the goroutine stops and the others go on. Either way the session does not complete.
  Memory suffices for any block below 2^48 bytes.
- Session: has no clock. Whether a stream meets its deadline is decided once, from the settings, as if the clocks of both sides
  started with the test and ticked on time, every tick let a block through and every block arrived at once; with slower ones more
  sessions hang. That RUDP and KCP heed `SetDeadline`, and wait for data in a read into an empty buffer, is assumed of them.
- The server's own timer, five seconds after the client's, enters only as the time after which nothing comes in reverse mode; and
  anything that outlives a session: one session at a time.
- Session: the goroutines are a transition system over values, not classes with methods, because their steps interleave and
  the properties range over all interleavings; what the fields of `IperfTest` share between goroutines is shared there through
  the state, statement by statement. Streams write whole blocks, as Go's `io.Writer` promises of a write that succeeds.
- Session: takes statistics and report callbacks as non-blocking; `Handshake` says when they are. A statistics pass there is one
  step over all streams and appends bytes only; `StreamHistory` has the whole interval. The server accepts data streams in the
  order the client connects them.
- Session: with a rate other than zero the throttle opens and shuts at any moment; `SendLoop` has the clock and the comparison.
  Rates that `createSenderTicker` refuses are excluded: `ParseArguments` never sets a rate together with burst, and always sets
  a pacing time with it.
- Session: the actual byte and block limits; a client sender may stop early at any moment if `limits` is set, so safety covers
  tests with limits, and `HangsIffUnhealthy` is stated without. `ParseArguments` has no flag for limits, and they are not among
  the parameters a client sends, so the server has none.
- SessionVerdict.HealthySessionsDeliver: says that completion stays possible, not that a scheduler that never runs some
  goroutine again still completes.
- SendLoop, RecvLoop: the interleavings are a machine over values; the classes run a single goroutine, so aliasing between
  goroutines is captured by the machine's events only. The wrap-around of `bytes_sent * 8` beyond 2^61 bytes and the rounding of
  the comparison are not modelled.
- Tickers: a tick and a stop request that are ready together are taken in either order, as an arrival list.
- Flag parsing, printing, logging and the arithmetic of displayed numbers; `test.go`, `main.go`, `logger.go`.
