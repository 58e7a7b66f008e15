# Verified models of the observer suite

The repository is a set of eBPF observers (message queues, UDP and TCP sends, slab allocation) together with the
vendored tools they are built with, bpftool and blazesym. This project models their hardest parts in Dafny and proves
what they are meant to guarantee: over every interleaving of probes, every program, every type graph, every buffer.

| module | component |
|---|---|
| `MsgQueue`, `MaxUpdate` | the POSIX message-queue tracker: eight probes, three LRU maps, and the bounded compare-and-swap maximum at instruction granularity |
| `Udp` | the UDP send tracker: nested sends, per-CPU counters, and their merge in user space |
| `Tcp` | the TCP session tracker: sessions keyed by socket address, through address reuse, eviction and map failure |
| `Slab`, `SlabUser` | the slab collector: per-CPU accumulation in the kernel, snapshot differences in user space |
| `Cfg` | bpftool's control-flow graph builder |
| `BtfGen`, `BtfCompact` | bpftool's BTF minimiser: marking, then compaction with id remapping |
| `DataSec` | the layout of generated data-section structs |
| `Bitfield` | 128-bit bitfield extraction from two 64-bit words |
| `Reorder`, `Leb128`, `PerfMap`, `FileCache` | blazesym: permuting back in place, LEB128, perf-map lookup, the file cache |
| `PerCpu`, `Bits`, `Wrappers` | sums over per-CPU copies, machine words as numbers, Option and Result |

The event-driven components share one shape. A `State` value and a `Step` function give the meaning of one atomic
probe (or of an eviction, an environment event); `RunTo(…, tr, n)` is the state after the first `n` events of an
arbitrary trace `tr`, so a lemma about `RunTo` is a statement about every run and every reachable state. A class with
the probes' own fields runs each probe branch by branch, and every method is proved equal to its `Step`. What the
environment decides (clock values, process ids, kernel memory, whether a map update succeeds or the ring buffer has
room) is part of the event. Logs of reports and tallies of lost sessions are ghost state. They, the maps and the
counters are tied to the trace by separate definitions that do not use the steps (`MsgQueue.CallsAreReplay`,
`Udp.LogIsDue`, `Tcp.TotalsAreTrace`, `Slab.BucketsAreTrace`, `FileCache.StickyIffPinned` and others), so that the
statistics are about the events and not about what a step chose to record. Every lemma is marked `{:induction false}`:
all inductions are written out.

Some properties one would expect turn out to hold only under a condition; there the code is kept as it is, the
condition is proved exact, and another lemma shows an input on the other side of it:

| condition | exact | other side reached |
|---|---|---|
| at most 16 concurrent maximum updates | `MaxUpdate.LosslessIffAtMost16` | `MaxUpdate.TooManyCalls` |
| the sender's map update succeeds exactly when the receiver is tracked | `MsgQueue.HandOverCommutes` | `MsgQueue.StaleDirect` |
| a block starts after each unconditional jump | `Cfg.CoveredIff` | `Cfg.JumpMissed`, an array the builder accepts and the kernel verifier would reject for its unreachable instruction |
| offsets suit the target's alignment | `DataSec.LayoutIff` | `DataSec.OnlyWhereAlignedTo4` |
| the field ends before bit 128 | `Bitfield.ExtractExactIff` | `Bitfield.FullWidthFails` |
| no nearer start hides the covering functions | `PerfMap.AgreesIff` | `PerfMap.OverlapCanHide` |
| the 64-bit byte sum does not fall between snapshots | `SlabUser.Telescopes` | `SlabUser.WrapLosesCounts`, `SlabUser.WrapHappens`, for every size of object |

Where the code and its comments disagree, the model follows the code. In `udp_monitor.bpf.c` a comment (lines 377-380)
says that the send-skb probe of a nested call finds no context; the probe looks up the thread, finds the outer
context, and overwrites its tuple (`Udp.NestedFlowOverwrites`). In `util.rs` a comment (lines 379-381) promises the
first index of a run of equal keys; a run at the front of the slice is reported by its last index
(`PerfMap.LastOfFrontRun`).

Check everything with `dafny verify dfyconfig.toml`.

## Model

| member | source | states |
|---|---|---|
| `MsgQueue.Tracker.StatsUpdateMax` | ipc/msgqueue/msgqueue.bpf.c:422-436 | alone, the retry loop leaves the maximum of the old value and the candidate |
| `MsgQueue.Tracker.MqSendEnter` | ipc/msgqueue/msgqueue.bpf.c:577-609 | records the sender of a send call, or counts the drop |
| `MsgQueue.Tracker.MqLoadMsgExit` | ipc/msgqueue/msgqueue.bpf.c:622-662 | a valid message of a tracked send becomes pending and is noted in the send context |
| `MsgQueue.Tracker.MqMsgInsertExit` | ipc/msgqueue/msgqueue.bpf.c:676-713 | a pending message that was inserted moves to the queued map with its time, or is dropped |
| `MsgQueue.Tracker.MqRecvEnter` | ipc/msgqueue/msgqueue.bpf.c:727-757 | records the receiver, or counts the drop |
| `MsgQueue.Tracker.SubmitQueuedEvent` | ipc/msgqueue/msgqueue.bpf.c:462-515 | statistics and ring-buffer record of a queued message; the threshold affects only the record |
| `MsgQueue.Tracker.SubmitDirectEvent` | ipc/msgqueue/msgqueue.bpf.c:523-563 | statistics and ring-buffer record of a direct message |
| `MsgQueue.Tracker.ConsumeMessage` | ipc/msgqueue/msgqueue.bpf.c:773-833 | the four branches: queued, direct, still pending, unmatched |
| `MsgQueue.Tracker.MqStoreMsgEnter` | ipc/msgqueue/msgqueue.bpf.c:847-854 | store_msg consumes and counts unmatched messages |
| `MsgQueue.Tracker.MqFreeMsgEnter` | ipc/msgqueue/msgqueue.bpf.c:866-871 | free_msg consumes and does not |
| `MsgQueue.Tracker.MqSendExit` | ipc/msgqueue/msgqueue.bpf.c:888-930 | a successful return of a send whose message is still pending makes it direct |
| `MsgQueue.Tracker.MqRecvExit` | ipc/msgqueue/msgqueue.bpf.c:938-953 | drops the receive context |
| `MsgQueue.Sender` | ipc/msgqueue/msgqueue.bpf.c:577-609 | the event at which a thread entered the send call it is in: enabled, with a TGID and a successful update, and not returned from since |
| `MsgQueue.Receiver` | ipc/msgqueue/msgqueue.bpf.c:727-757 | the same for receive calls |
| `MsgQueue.CallsAreReplay` | ipc/msgqueue/msgqueue.bpf.c:577-953 | in every run a thread has a send context iff it is inside a tracked send call, with the metadata of that entry and the message it loaded last, and a receive context iff it is inside a tracked receive call, with that entry's process, descriptor and name |
| `MsgQueue.TokensBoundedByLoads` | ipc/msgqueue/msgqueue.bpf.c:622-713 | in any run, with any address reuse, entries plus reports of a message never exceed its tracked loads |
| `MsgQueue.TokensSince` | ipc/msgqueue/msgqueue.bpf.c:622-833 | the same from any moment of the run on: what is added since is bounded by the loads since |
| `MsgQueue.AtMostOnce` | ipc/msgqueue/msgqueue.bpf.c:773-833 | from any moment at which an address is in no map and as long as it is handed out once more, its message is in at most one map, reported at most once, and in no map once reported; other addresses may be reused at will |
| `MsgQueue.PendingOrigin` | ipc/msgqueue/msgqueue.bpf.c:622-662 | in every run the pending map holds a message iff a load of it stands that was not repeated, inserted, returned from, taken by a tracked receiver or evicted, and the entry is that sender's own metadata |
| `MsgQueue.QueuedOrigin` | ipc/msgqueue/msgqueue.bpf.c:676-713 | it is in the queued map iff a successful insert while it was pending stands that was not repeated, consumed or evicted; the entry has the insert's time and the metadata of the load before it |
| `MsgQueue.DirectOrigin` | ipc/msgqueue/msgqueue.bpf.c:888-930 | it is in the direct map iff a successful return of its send while it was pending stands that was not repeated, consumed or evicted; the entry is the metadata of the load, never inserted in between |
| `MsgQueue.LogGrowth` | ipc/msgqueue/msgqueue.bpf.c:773-871 | only store_msg and free_msg report, at most one message each, and exactly which |
| `MsgQueue.DeliveryOrigin` | ipc/msgqueue/msgqueue.bpf.c:462-563 | every report has its load, its deciding event and the consuming probe that made it; sender and receiver are those of their own entries, and the PID filter is off or asks for one of them; QUEUED carries consume minus insert time, DIRECT was not inserted before its return or consumption |
| `MsgQueue.Held` | ipc/msgqueue/msgqueue.bpf.c:622-713 | where an undisturbed message is kept at every point between load and consumption |
| `MsgQueue.ExactlyOnce` | ipc/msgqueue/msgqueue.bpf.c:773-871 | an undisturbed message whose address was in no map before, consumed inside a tracked receive call that the filter lets through, is reported exactly once since then, with the metadata of its sender's entry and of the receiver's, QUEUED iff inserted first |
| `MsgQueue.KindTellsInsertion` | ipc/msgqueue/msgqueue.bpf.c:676-713 | in every run a report is QUEUED iff, between its load and the event that made it, the message was inserted before its sender returned; where no insert follows that return, iff it was inserted at all |
| `MsgQueue.StatisticsExact` | ipc/msgqueue/msgqueue.bpf.c:462-563 | in every run the counters are the number and sum over all reports and the largest residence among them whatever the threshold; the ring holds, with their times, the reports above it that found room, and the others above it are the counted drops |
| `MsgQueue.CountersAreTrace` | ipc/msgqueue/msgqueue.bpf.c:577-930 | in every run the drop counter is the number of map updates that were due and failed, and the unmatched counter the number of stores of unknown messages inside tracked receive calls that the filter lets through |
| `MsgQueue.StoreCountedOnce` | ipc/msgqueue/msgqueue.bpf.c:773-854 | unfiltered, each store_msg of a tracked receiver raises exactly one of the three delivery counters |
| `MsgQueue.HandOverCommutes` | ipc/msgqueue/msgqueue.bpf.c:803-928 | sender's return and store_msg commute up to timestamps iff the map update succeeds exactly when the receiver is tracked |
| `MsgQueue.StaleDirect` | ipc/msgqueue/msgqueue.bpf.c:803-928 | a run in which an untracked receiver that stores before the sender returns leaves a stale direct entry, and the swapped run does not |
| `MaxUpdate.StepKeeps` | ipc/msgqueue/msgqueue.bpf.c:426-435 | each instruction of each call keeps the charging invariant and never lowers the shared value |
| `MaxUpdate.NeverDecreases` | ipc/msgqueue/msgqueue.bpf.c:422-436 | in every schedule the shared value never decreases |
| `MaxUpdate.FailuresCharged` | ipc/msgqueue/msgqueue.bpf.c:426-435 | for every call, finished or not, each of its failed compare-and-swaps is charged to a distinct success of another call |
| `MaxUpdate.FinalMaximum` | ipc/msgqueue/msgqueue.bpf.c:422-436 | with at most 16 calls the final value is exactly the maximum of the initial value and all candidates |
| `MaxUpdate.TooManyCalls` | ipc/msgqueue/msgqueue.bpf.c:425-426 | for each larger number of calls some schedule loses the maximum |
| `MaxUpdate.LosslessIffAtMost16` | ipc/msgqueue/msgqueue.bpf.c:422-436 | no schedule loses the maximum if and only if there are at most 16 calls |
| `Udp.Monitor.RecordUdpSend` | net/udp_monitor/udp_monitor.bpf.c:324-504 | entry of a send: filter, nesting, the two map updates with roll-back, the counters |
| `Udp.Monitor.TraceSendSkb` | net/udp_monitor/udp_monitor.bpf.c:548-649 | the flow probes replace the tuple of a live context |
| `Udp.Monitor.Settle` | net/udp_monitor/udp_monitor.bpf.c:742-810 | counters, maximum record and event of a successful send |
| `Udp.Monitor.FinishUdpSend` | net/udp_monitor/udp_monitor.bpf.c:668-811 | return of a send: inner returns only lower the depth, the outermost settles |
| `Udp.AlwaysNested` | net/udp_monitor/udp_monitor.bpf.c:373-396 | in every reachable state contexts exist only for threads inside a send |
| `Udp.AlwaysBalanced` | net/udp_monitor/udp_monitor.bpf.c:496-780 | in every reachable state, summed over CPUs, attempts = counted + failed + live + evicted and counted = submitted + filtered + dropped, with attempts and evictions those of the trace by `Udp.TotalsAreTrace` |
| `Udp.DepthIsBrackets` | net/udp_monitor/udp_monitor.bpf.c:373-396 | the recorded depth of a tracked well-bracketed thread is its bracket depth at each point |
| `Udp.OneAttemptPerCall` | net/udp_monitor/udp_monitor.bpf.c:683-714 | exactly one settlement is attempted per outermost call; `Udp.NeverMissed` and `Udp.NoneMissed` say what it is |
| `Udp.NothingLeftBehind` | net/udp_monitor/udp_monitor.bpf.c:683-714 | both maps hold the thread only inside a send, the depth map exactly then |
| `Udp.DepthIsReplay` | net/udp_monitor/udp_monitor.bpf.c:373-396 | in every run the depth map is a replay of the trace: entries that open or nest, returns that lower or end |
| `Udp.ContextIsReplay` | net/udp_monitor/udp_monitor.bpf.c:398-504 | in every run the start map holds a thread iff the trace has an entry that opened its context, not returned from at depth one or evicted since, and the context is the replay from that entry |
| `Udp.CtxFacts` | net/udp_monitor/udp_monitor.bpf.c:398-649 | that replay has the owner and time of the entry, and a FLOW tuple iff a send-skb probe ran since, else the entry's own tuple |
| `Udp.CtxTuple` | net/udp_monitor/udp_monitor.bpf.c:548-649 | a FLOW tuple is that of the last send-skb probe |
| `Udp.ContextInside` | net/udp_monitor/udp_monitor.bpf.c:373-396 | a tracked well-bracketed thread that is never evicted has a context exactly while it is inside a send |
| `Udp.LogIsDue` | net/udp_monitor/udp_monitor.bpf.c:668-810 | in every run the settlements and the ring buffer are exactly those due by the trace, in order: one for every outermost return, with latency, bytes and tuple of its own call |
| `Udp.NeverMissed` | net/udp_monitor/udp_monitor.bpf.c:683-741 | an outermost return of a tracked thread that was not evicted settles as failed or counted by its return value, never as missed |
| `Udp.NoneMissed` | net/udp_monitor/udp_monitor.bpf.c:683-741 | in a run without evictions of such a thread none of its calls is missed |
| `Udp.TotalsAreTrace` | net/udp_monitor/udp_monitor.bpf.c:324-741 | in every run attempts, PID-filtered, nested, refused and missed calls and evictions are the numbers of events of these kinds in the trace |
| `Udp.SettlementOrigin` | net/udp_monitor/udp_monitor.bpf.c:668-780 | every settled send has its entry and its return, whose times give the latency; FLOW iff a send-skb probe ran in between |
| `Udp.NestedFlowOverwrites` | net/udp_monitor/udp_monitor.bpf.c:373-388 | the send-skb probe of a nested call overwrites the tuple of the outer context |
| `Udp.AlwaysExact` | net/udp_monitor/udp_monitor.bpf.c:728-758 | in every run, summed over CPUs, sends, failures, total latency, total bytes, sends with and without a flow tuple, filtered and dropped events are those of the settled sends |
| `Udp.MergeStats` | net/udp_monitor/user.c:91-114 | the merge loop computes the sum record with the running maximum |
| `Udp.AlwaysMaxes` | net/udp_monitor/udp_monitor.bpf.c:752-757 | each CPU's maximum bounds the sends settled there, and a positive one is a real send |
| `Udp.MergedReport` | net/udp_monitor/user.c:91-114 | every field of the merged report of every run: sums over the settlements due by the trace, tuple sources included; the filtered, nested, refused and missed calls of the trace; the conservation equations; and as maximum one real send of maximal latency with its own ids |
| `Tcp.Monitor.RecordConnect` | net/tcp_monitor/tcp_monitor.bpf.c:305-342 | a tracked connect counts and stores a new session, or counts the refusal |
| `Tcp.Monitor.FinishConnectCall` | net/tcp_monitor/tcp_monitor.bpf.c:373-388 | a failed connect removes the session, another saves the addresses |
| `Tcp.Monitor.TraceFinishConnect` | net/tcp_monitor/tcp_monitor.bpf.c:431-510 | the first finish settles the handshake, filtered or counted and reported |
| `Tcp.Monitor.TraceRetransmit` | net/tcp_monitor/tcp_monitor.bpf.c:522-567 | a retransmission raises the session's 32-bit count and is reported |
| `Tcp.Monitor.TraceClose` | net/tcp_monitor/tcp_monitor.bpf.c:584-637 | close removes the session in any case, and reports it if allowed |
| `Tcp.SessionIsReplay` | net/tcp_monitor/tcp_monitor.bpf.c:305-619 | in every run, with address reuse, evictions and refusals, the map holds a socket iff the trace has a stored connect on it not replaced, failed, closed or evicted since, and the session is the replay from that connect: owner, start, retransmissions, handshake flag, addresses |
| `Tcp.SessionsAllowed` | net/tcp_monitor/tcp_monitor.bpf.c:208-215 | stored sessions always pass session_allowed |
| `Tcp.ReportOrigin` | net/tcp_monitor/tcp_monitor.bpf.c:431-637 | every counted handshake, retransmission and close is the one due for one session of the trace, event and all: lifetime and all retransmissions at close, the number so far at a retransmission, the latency of the first finish, the owner and the addresses of that session |
| `Tcp.LogIsDue` | net/tcp_monitor/tcp_monitor.bpf.c:431-637 | in every run the reports are exactly the due ones, in order: every close and every retransmission of a current session, and its first finish unless too quick; none is missing and none is made up |
| `Tcp.StatisticsExact` | net/tcp_monitor/tcp_monitor.bpf.c:463-637 | in every run, on every CPU, the counters are the number and the sum of the latencies of the reports there, and a maximum that bounds them and is one of them, for handshakes and closes; by `Tcp.LogIsDue` the reports are those of the trace; the longest handshake has its own addresses and name, and the ring shows what found room |
| `Tcp.AlwaysBalanced` | net/tcp_monitor/tcp_monitor.bpf.c:305-637 | every reachable state balances stored connects, settled handshakes and reports over all CPUs |
| `Tcp.TotalsOfARun` | net/tcp_monitor/tcp_monitor.bpf.c:305-637 | closes + live sessions and handshakes + filtered + unsettled sessions never exceed the connects, and the slack is exactly what was refused, lost or ended unsettled, each a number of events in the trace |
| `Tcp.TotalsAreTrace` | net/tcp_monitor/tcp_monitor.bpf.c:305-637 | in every run each counter is the number of events of its kind in the trace; lost sessions are the evictions, failed returns and stored connects that hit a current session, unsettled ones those that ended before their handshake |
| `Slab.Collector.MatchPid` | mem/slab_rate/slab_rate.bpf.c:164-188 | the PID filter, counting what it rejects |
| `Slab.Collector.AccountAlloc` | mem/slab_rate/slab_rate.bpf.c:207-242 | adds one allocation to this CPU's copy, creating the key if there is room, or counts the failure |
| `Slab.Collector.AccountCacheSize` | mem/slab_rate/slab_rate.bpf.c:255-266 | the size-class fallback, counted |
| `Slab.Collector.HandleKmemCacheAlloc` | mem/slab_rate/slab_rate.bpf.c:283-352 | named caches, with fallback and unreadable names |
| `Slab.Collector.HandleKmemCacheAllocNode` | mem/slab_rate/slab_rate.bpf.c:363-396 | node allocations by size class |
| `Slab.Collector.HandleKmalloc` | mem/slab_rate/slab_rate.bpf.c:408-479 | both kmalloc handlers |
| `Slab.StepShaped` | mem/slab_rate/slab_rate.bpf.c:109-114 | keys are never removed, have one copy per CPU, and never exceed the capacity |
| `Slab.OneBucketEach` | mem/slab_rate/slab_rate.bpf.c:283-479 | in every run, for every enumeration of the keys, events seen = failed + filtered + unnamed + refused + the counts of all keys on all CPUs |
| `Slab.AlwaysPriced` | mem/slab_rate/slab_rate.bpf.c:240-241 | on every CPU the bytes of a key are its count times its size, in 64 bits |
| `Slab.KeyOfIs` | mem/slab_rate/slab_rate.bpf.c:255-479 | which key an event has: object size and name of a named cache, cut off after 47 characters, the size of a kmalloc, or the size class where the cache is not known; and that only unreadable names have none |
| `Slab.CountIsAllocations` | mem/slab_rate/slab_rate.bpf.c:207-242 | a key's count is the number of events that pass the filter, have that key, and find or get an entry |
| `Slab.KeysAreAccounted` | mem/slab_rate/slab_rate.bpf.c:207-242 | a key has an entry iff some event was accounted to it |
| `Slab.BucketsAreTrace` | mem/slab_rate/slab_rate.bpf.c:164-479 | in every run each health counter, summed over CPUs, is the number of events of its kind in the trace |
| `SlabUser.Reporter.FindPrevious` | mem/slab_rate/user.c:222-232 | finds the first sample of a key, or none |
| `SlabUser.Reporter.AddCopies` | mem/slab_rate/user.c:255-263 | adds up the copies of one key |
| `SlabUser.Reporter.CollectSamples` | mem/slab_rate/user.c:238-284 | the samples of a walk over the hash, or its error: too many keys, failed lookup, failed walk |
| `SlabUser.WalkOkIff` | mem/slab_rate/user.c:238-284 | a walk gets through iff failed lookups fail only because the key is gone and at most 1024 keys are found |
| `SlabUser.WalkError` | mem/slab_rate/user.c:238-284 | otherwise the first lookup that fails in another way, or the first key too many, gives the error |
| `SlabUser.Reporter.AddRow` | mem/slab_rate/user.c:323-340 | one row for a sample that has grown, none for a fallen or unchanged one |
| `SlabUser.Reporter.ComputeRows` | mem/slab_rate/user.c:316-341 | the rows of a window, sample by sample |
| `SlabUser.Reporter.HandOver` | mem/slab_rate/user.c:374-375 | the current snapshot becomes the previous one |
| `SlabUser.Reporter.PrintInterval` | mem/slab_rate/user.c:290-377 | rows and snapshot of one window; an empty interval or an error keeps the previous snapshot |
| `SlabUser.SkippedIff` | mem/slab_rate/user.c:290-312 | a window is skipped iff no time has passed or its walk did not get through, and only the latter returns an error |
| `SlabUser.RowsReport` | mem/slab_rate/user.c:316-341 | for each key the rows report exactly how far it has grown |
| `SlabUser.ReportsAreDifferences` | mem/slab_rate/user.c:290-377 | over a series of windows the reports are the differences of consecutive snapshots, skipped windows included |
| `SlabUser.DifferencesTelescope` | mem/slab_rate/user.c:319-334 | the differences add up to the last value iff the byte sum never fell; otherwise counts are lost |
| `SlabUser.Telescopes` | mem/slab_rate/user.c:290-377 | counts and bytes reported over all windows equal the last snapshot iff its byte sum never fell between snapshots |
| `SlabUser.ObservedIs` | mem/slab_rate/user.c:238-284 | a read of a key during a kernel run sees its allocations so far, and that many times its size in 64 bits |
| `SlabUser.SnapshotsWatch` | mem/slab_rate/user.c:238-284 | if each walk reads a key at some moment of a kernel run, the snapshots hold its value at those moments |
| `SlabUser.ReportsAreAllocations` | mem/slab_rate/user.c:286-377 | from allocation to report: if each walk reads the key at some moment of a kernel run, all windows together report exactly the allocations accounted to it up to the last read, as long as the bytes fit 64 bits |
| `SlabUser.WrapLosesCounts` | mem/slab_rate/user.c:321-334 | for every size of object: as many allocations on one CPU as make the byte sum wrap, read before and after the last one; the second window reports nothing and that allocation is lost |
| `SlabUser.WrapHappens` | mem/slab_rate/slab_rate.bpf.c:207-242 | what the kernel side shows at those two moments: count and bytes before, and the wrapped sum after |
| `SlabUser.OverflowsAt` | mem/slab_rate/slab_rate.bpf.c:240-241 | there is such a number of allocations for every size |
| `Cfg.Opcodes` | lib/bpftool/src/cfg.c:160-188 | which opcode bytes are jumps, calls, exits, conditional and unconditional jumps and calls of program functions |
| `Cfg.Func.AppendBb` | lib/bpftool/src/cfg.c:88-112 | sorted insertion of a block head, without duplicates |
| `Cfg.Func.PartitionBbHead` | lib/bpftool/src/cfg.c:165-197 | blocks start exactly at the entry, the jump targets and after conditional jumps |
| `Cfg.Func.PartitionBbTail` | lib/bpftool/src/cfg.c:199-214 | blocks are non-empty, contiguous, and numbered in order |
| `Cfg.Func.AddSpecialBb` | lib/bpftool/src/cfg.c:216-231 | dummy entry and exit blocks around the list |
| `Cfg.Func.SearchBbWithHead` | lib/bpftool/src/cfg.c:243-254 | the block with a given head, or none |
| `Cfg.Func.BlockEdges` | lib/bpftool/src/cfg.c:297-329 | the edges one block gets are right: all of them called for, none with a null destination |
| `Cfg.Func.AddBbEdges` | lib/bpftool/src/cfg.c:277-332 | turns the block list of a closed function into a good graph |
| `Cfg.Func.Build` | lib/bpftool/src/cfg.c:344-350 | blocks, dummy blocks and edges of one function |
| `Cfg.Graph.AppendFunc` | lib/bpftool/src/cfg.c:63-86 | sorted insertion of a function start, without duplicates, numbered apart |
| `Cfg.Graph.CollectStarts` | lib/bpftool/src/cfg.c:136-148 | functions start exactly at instruction 0 and at call targets |
| `Cfg.Graph.SetEnds` | lib/bpftool/src/cfg.c:150-155 | functions are contiguous up to the end of the program |
| `Cfg.Graph.PartitionFuncs` | lib/bpftool/src/cfg.c:131-158 | the functions are sorted and cut the program without gaps or overlaps |
| `Cfg.Graph.BuildAll` | lib/bpftool/src/cfg.c:344-352 | the per-function loop leaves extents alone and builds every graph |
| `Cfg.Graph.Build` | lib/bpftool/src/cfg.c:334-353 | for every well-formed program: the functions cut it without gaps or overlaps, and each is one of its functions with a good graph |
| `Cfg.FunctionsAreFunctions` | lib/bpftool/src/cfg.c:131-158 | the cut-out ranges are functions of the program |
| `Cfg.CutContiguous` | lib/bpftool/src/cfg.c:131-158 | functions cut out right, one for each start, leave no gaps and do not overlap |
| `Cfg.TargetHasBlock` | lib/bpftool/src/cfg.c:311-328 | the block searched for at a jump target always exists and is no dummy |
| `Cfg.NoHeadInside` | lib/bpftool/src/cfg.c:165-214 | no block start lies inside another block |
| `Cfg.StepCovered` | lib/bpftool/src/cfg.c:277-332 | a control transfer stays in its block or follows a successor edge |
| `Cfg.CoveredIff` | lib/bpftool/src/cfg.c:165-332 | the graph shows every transfer inside the function iff each unconditional jump is followed by a block start |
| `Cfg.JumpMissed` | lib/bpftool/src/cfg.c:165-332 | an array the builder accepts, with an instruction that cannot be reached, none of whose graphs shows every transfer |
| `Cfg.EdgesSound` | lib/bpftool/src/cfg.c:297-329 | every edge is a transfer of the program, the fall-through drawn after BPF_EXIT, or leads to the exit block |
| `BtfGen.Marker.MarkMember` | lib/bpftool/src/gen.c:2082-2088 | marks one member |
| `BtfGen.Marker.MarkType` | lib/bpftool/src/gen.c:2090-2163 | success visits the least set of types that holds the type and all it leads to; in any case only visited types are marked, none that a closed set could do without; failure only on a visited type of a rejected kind |
| `BtfGen.Marker.MarkProto` | lib/bpftool/src/gen.c:2141-2155 | the prototype case, return type and parameter loop, to the same standard |
| `BtfGen.Marker.MarkArray` | lib/bpftool/src/gen.c:2131-2140 | the array case, element and index type, to the same standard |
| `BtfGen.Marker.RecordFieldRelo` | lib/bpftool/src/gen.c:2165-2217 | on success all members on the access path are marked and the marks are closed; whatever was marked before, nothing is added beyond what the path and its types need; failure only on a rejected kind or a path that leads nowhere |
| `BtfGen.Marker.StepInto` | lib/bpftool/src/gen.c:2181-2214 | one element of the path: the member and its type are marked, or an array is entered, and nothing else |
| `BtfGen.Marker.MarkTypeMatch` | lib/bpftool/src/gen.c:2227-2314 | success carries out the calls asked for, all of them, marking types and members; every mark is justified by such a call |
| `BtfGen.Marker.MarkMatchMembers` | lib/bpftool/src/gen.c:2249-2267 | the member loop marks every member and carries out the calls for their types |
| `BtfGen.Marker.MarkMatchCalls` | lib/bpftool/src/gen.c:2268-2306 | the recursive calls for modifiers, pointers, arrays and prototypes |
| `BtfGen.Marker.RecordTypeMatchRelo` | lib/bpftool/src/gen.c:2320-2323 | keeps the marks closed, explores everything the root asks for, and marks nothing that no such call justifies |
| `BtfGen.Marker.RecordTypeRelo` | lib/bpftool/src/gen.c:2325-2333 | keeps the marks closed and adds exactly what the root leads to, for type and enum-value relocations |
| `BtfGen.Marker.RecordReloc` | lib/bpftool/src/gen.c:2335-2359 | each kind of relocation is recorded in its own way, nothing is added that it does not need, and every failure has its cause |
| `BtfGen.Marker.RecordAll` | lib/bpftool/src/gen.c:2443-2474 | after any number of relocations all of them are recorded, the marks are closed, and they are the least marks with which all are |
| `BtfGen.RecordedMore` | lib/bpftool/src/gen.c:2335-2359 | later marking does not undo what was recorded |
| `BtfGen.SkipModsMarked` | lib/bpftool/src/gen.c:2182-2186 | skipping typedefs and qualifiers stays on marked types |
| `BtfCompact.CopyMembers` | lib/bpftool/src/gen.c:2540-2554 | copies exactly the marked members, in order |
| `BtfCompact.CopyType` | lib/bpftool/src/gen.c:2521-2560 | the type cut down to its marked members |
| `BtfCompact.CopyMarked` | lib/bpftool/src/gen.c:2510-2564 | the id map is an order-preserving bijection from the marked types onto 1..k |
| `BtfCompact.RewriteIds` | lib/bpftool/src/gen.c:2566-2578 | the second pass changes nothing but ids: kind, names, sizes, numbers of members and parameters stay, and every id in every position is the one its old id maps to |
| `BtfCompact.GetBtf` | lib/bpftool/src/gen.c:2491-2588 | the new graph is the marked part, restricted and renumbered, field by field |
| `BtfCompact.MinimisedCuts` | lib/bpftool/src/gen.c:2510-2588 | each type of a minimised graph is the original one with every id of every position mapped, all else unchanged, and of a composite the members at the marked positions |
| `BtfCompact.KeptAtPositions` | lib/bpftool/src/gen.c:2540-2554 | the members kept are those at the marked positions, in ascending order |
| `BtfCompact.NewIdsValid` | lib/bpftool/src/gen.c:2566-2578 | every id in the new graph is one of its types |
| `BtfCompact.VoidOnlyUnderPointer` | lib/bpftool/src/gen.c:2510-2578 | after closed marking a reference becomes void only directly under a pointer |
| `BtfCompact.AccessPreserved` | lib/bpftool/src/gen.c:2165-2588 | a recorded access path leads in the new graph through members of the same names, offsets and sizes to the same type |
| `BtfCompact.MinimizeBtf` | lib/bpftool/src/gen.c:2613-2653 | from relocations to the new graph: it is the part with the least marks under which every relocation is recorded, and it means the same to each of them, of whichever kind; failure only on a relocation that cannot be recorded |
| `BtfCompact.RecordedPreserved` | lib/bpftool/src/gen.c:2491-2588 | a recorded access path leads to the same fields and type; a type or enum value is there with all it leads to; a type match finds every type it compares, composites not behind a pointer with all members |
| `DataSec.Codegen` | lib/bpftool/src/gen.c:166-230 | the loop emits exactly the specified fields and padding, or the specified error |
| `DataSec.EmitOkIff` | lib/bpftool/src/gen.c:181-192 | generation fails iff an exposed variable overlaps the previous one or has no alignment |
| `DataSec.EmitError` | lib/bpftool/src/gen.c:181-192 | the error names the first such variable and its cause |
| `DataSec.DeclaresExposed` | lib/bpftool/src/gen.c:177-179 | exactly the non-static variables are declared, in order |
| `DataSec.PadsWhereNeeded` | lib/bpftool/src/gen.c:205-213 | padding fills the gap before a variable exactly where alignment to at most 4 does not reach its offset |
| `DataSec.LayoutIff` | lib/bpftool/src/gen.c:205-229 | laid out by C rules, every variable lands at its BTF offset iff the offsets suit the target's alignments, be 8-byte types aligned to 8 or to 4 |
| `DataSec.OnlyWhereAlignedTo4` | lib/bpftool/src/gen.c:205-229 | a variable that lands at its offset on one kind of target only |
| `DataSec.NaturalAlignmentSuffices` | lib/bpftool/src/gen.c:193-213 | naturally aligned variables land at their offsets on both kinds of target |
| `Bitfield.Int128Shift` | lib/bpftool/src/btf_dumper.c:310-349 | the in-place shift of the two-word array |
| `Bitfield.LeftIsShift` | lib/bpftool/src/btf_dumper.c:324-331 | the two-word left shift multiplies by the power of two modulo 2^128 |
| `Bitfield.RightIsShift` | lib/bpftool/src/btf_dumper.c:333-340 | the two-word right shift divides by the power of two |
| `Bitfield.DumperBitfield` | lib/bpftool/src/btf_dumper.c:351-375 | the number printed is what the two shifts yield, and for a field that ends before bit 128 it is floor(V / 2^bit_offset) mod 2^nr_bits of the whole buffer V |
| `Bitfield.ExtractExact` | lib/bpftool/src/btf_dumper.c:310-375 | extraction is exact for every field that ends before bit 128, whatever the stray bits |
| `Bitfield.FullWidthFails` | lib/bpftool/src/btf_dumper.c:327-331 | a field ending at bit 128 is cut out wrongly |
| `Bitfield.ExtractExactIff` | lib/bpftool/src/btf_dumper.c:310-375 | extraction is right for all buffers iff the field ends before bit 128 |
| `Reorder.SwapHome` | lib/blazesym/src/util.rs:244-248 | each swap keeps a permutation and misplaces strictly fewer elements |
| `Reorder.SwapToHome` | lib/blazesym/src/util.rs:245-247 | one swap of array and indices |
| `Reorder.SettleAt` | lib/blazesym/src/util.rs:244-248 | the inner loop terminates with position i settled |
| `Reorder.Reorder` | lib/blazesym/src/util.rs:237-250 | for every permutation, element i ends up at the position its index names |
| `Reorder.SortPairsFacts` | lib/blazesym/src/util.rs:267-272 | the sorted pairs ascend and hold each position once beside its value |
| `Reorder.Restore` | lib/blazesym/src/util.rs:275-276 | results go back to the positions recorded beside their values |
| `Reorder.WithOrderedElems` | lib/blazesym/src/util.rs:257-277 | for any total order, the handler sees ascending values, and in the slice extracted from its result each entry comes back at its value's own position; errors pass through |
| `Reorder.PointwiseHandler` | lib/blazesym/src/util.rs:253-277 | with a pointwise handler the result is the handler mapped over the unsorted input |
| `Reorder.WithPointwiseHandler` | lib/blazesym/src/util.rs:253-277 | the call itself then returns the handler mapped over the unsorted input |
| `Leb128.Cursor.ReadByte` | lib/blazesym/src/util.rs:627-631 | reads one byte and advances, or fails at the end |
| `Leb128.Cursor.ReadU64` | lib/blazesym/src/util.rs:538-559 | for every buffer and both kinds of build, reads the digits of one value, consuming exactly them; beyond ten bytes a checked build panics and a release build reduces the shift |
| `Leb128.Cursor.ReadGroups` | lib/blazesym/src/util.rs:564-576 | the loop of the signed reader, to the same standard |
| `Leb128.Cursor.ReadI64` | lib/blazesym/src/util.rs:563-584 | reads the same digits and extends the sign |
| `Leb128.SignExtend` | lib/blazesym/src/util.rs:578-581 | sign extension yields the signed value for every length up to ten bytes |
| `Leb128.DecodeMeaning` | lib/blazesym/src/util.rs:538-584 | up to ten bytes, and in a checked build always, the result is the number whose base-128 digits the bytes are, modulo 2^64, or its two's complement |
| `Leb128.RoundTripU` | lib/blazesym/src/util.rs:538-559 | every u64 is read back from its canonical encoding, with exactly its bytes consumed |
| `Leb128.RoundTripS` | lib/blazesym/src/util.rs:563-584 | every i64 is read back from its canonical encoding, sign included |
| `PerfMap.FindMatchOrLowerBound` | lib/blazesym/src/util.rs:358-393 | the first exact match, else an index in the run of the greatest smaller key: its first, or its last if the run is at the front |
| `PerfMap.LastOfFrontRun` | lib/blazesym/src/util.rs:383-392 | a run at the front of the slice is reported by its last index |
| `PerfMap.SortFuncsSorted` | lib/blazesym/src/perf_map.rs:105-113 | functions are ordered by start, and with equal starts by size |
| `PerfMap.ScanComplete` | lib/blazesym/src/perf_map.rs:158-184 | a scan that ends without a hit proves that no function with the nearest start covers the address |
| `PerfMap.FindSym` | lib/blazesym/src/perf_map.rs:157-189 | for every sorted map, returns a function with the nearest start that covers the address, iff there is one |
| `PerfMap.AgreesIff` | lib/blazesym/src/perf_map.rs:157-189 | lookup agrees with a linear search iff no nearer start hides the covering functions, which without overlaps never happens |
| `PerfMap.Lookup` | lib/blazesym/src/perf_map.rs:105-189 | from the unsorted file to the answer |
| `PerfMap.OverlapCanHide` | lib/blazesym/src/perf_map.rs:159-168 | a zero-size function inside another one hides the rest of it |
| `FileCache.InsertMap.Get` | lib/blazesym/src/insert_map.rs:37-47 | looks a key up |
| `FileCache.InsertMap.GetOrInsert` | lib/blazesym/src/insert_map.rs:56-69 | present keys keep their values, absent ones get the initial one |
| `FileCache.InsertMap.GetOrTryInsert` | lib/blazesym/src/insert_map.rs:78-98 | the same, and a failed initialisation inserts nothing |
| `FileCache.Cache.CellOf` | lib/blazesym/src/file_cache.rs:170-172 | the cell of a path, made empty if there is none |
| `FileCache.Cache.FindEntry` | lib/blazesym/src/file_cache.rs:153-163 | the entry for the metadata, opened if new |
| `FileCache.Cache.GetOrInsert` | lib/blazesym/src/file_cache.rs:149-166 | the entry for the metadata just read becomes current for the path; failures change nothing |
| `FileCache.Cache.GetEntry` | lib/blazesym/src/file_cache.rs:169-185 | pinned or non-reloading paths return what they hold, others reload |
| `FileCache.Cache.SetPinState` | lib/blazesym/src/file_cache.rs:187-206 | pins or unpins a path that holds an entry, and fails on others |
| `FileCache.AlwaysValid` | lib/blazesym/src/file_cache.rs:173-180 | in every run the held metadata has an entry, so the unwrap cannot fail |
| `FileCache.EntriesNeverReplaced` | lib/blazesym/src/file_cache.rs:125-137 | in every run entries persist unchanged |
| `FileCache.StickyEntry` | lib/blazesym/src/file_cache.rs:169-206 | a pinned path returns the same entry until it is unpinned, whatever the file system does |
| `FileCache.PinStep` | lib/blazesym/src/file_cache.rs:187-206 | pinning or unpinning a held path changes whether it is reloaded, and neither its metadata nor any entry or other path |
| `FileCache.PinnedEntry` | lib/blazesym/src/file_cache.rs:169-206 | from a pin of a held path on, until it is unpinned, lookups return the entry it held then |
| `FileCache.StickyIffPinned` | lib/blazesym/src/file_cache.rs:169-206 | with auto-reload a path is exempt from reloading iff it was pinned while it held an entry and not unpinned since |
| `FileCache.HeldIffAnswered` | lib/blazesym/src/file_cache.rs:149-185 | a path holds an entry iff some lookup of it has succeeded |
| `FileCache.StickyLookup` | lib/blazesym/src/file_cache.rs:173-181 | a path that is exempt returns the entry of the metadata it holds, and the lookup changes nothing |
| `FileCache.StatFails` | lib/blazesym/src/file_cache.rs:149-150 | a failed stat is an error and changes no entry and no other path |
| `FileCache.ReloadedEntry` | lib/blazesym/src/file_cache.rs:149-166 | an unpinned auto-reload lookup returns the entry of the metadata just read, newly opened if unknown and distinct from all others; other paths are left alone, and a failure changes nothing |
| `FileCache.SharedEntry` | lib/blazesym/src/file_cache.rs:153-164 | paths with equal metadata share one entry, however far apart they are looked up |

## Left out

- Sub-probe interleavings of the message-queue tracker: a probe is one atomic step, so a receiver that runs between the direct-map update and the pending-map delete of `mq_send_exit` (lines 909-915) is not covered.
- Reuse of a message address that is still in a map, or a second time while it is followed: at-most-once and exactly-once hold from a moment at which the address is in no map to its next load but one; `MsgQueue.TokensSince` is what holds in general.
- 64-bit wrap-around of event counters and of `total_ns` sums; latencies and the slab byte sums do wrap in the model.
- Jumps whose distance is not in `off`: the graph builder reads `off` for every jump, including the 32-bit `BPF_JA` that section 4.3 of RFC 9669 gives an `imm` distance; the model reads what the code reads. The second slot of a wide load is stepped over like an instruction.
- Malformed programs: jumps out of their function and functions that end in a conditional jump are excluded, as the kernel verifier excludes them; allocation failures are not modelled.
- Linked lists of the graph builder are sequences, and an edge names its blocks by position.
- Candidate search and relocation calculation of libbpf: the target specs that they yield are the input of `BtfCompact.MinimizeBtf`.
- Termination of the two marking recursions on arbitrary type graphs: a rank function of the graph is assumed, for the second one only where a type match is among the relocations. Marks are sets, not name offsets in a cloned BTF; libbpf's own type copying and field iteration are modelled by `BtfCompact.MapRefs`.
- `BtfGen.Marker.RecordFieldRelo`: assumes that the target spec indexes existing members, as libbpf guarantees.
- Big-endian bitfields. Shift counts equal to the word width are undefined in C and modelled as the hardware's modulo-64 shifts.
- `Vec::sort_unstable`, `sort_by_key`, `partition_point` and the BPF hash walk are modelled by functions; each key of a walk occurs once, and reads of one key are atomic.
- Address overflow at the end of a perf-map function, parsing of perf-map lines, and all unsafe aliasing and lifetimes behind the file cache and its insert-only maps.
- Sorting and printing of rates, `OUTPUT_ROWS`, and all other output; BPF loading, attaching and polling; kernel memory reads, PID-namespace conversion, socket and flow parsing, which enter as event inputs.
- The user-space merges of the TCP statistics and of the slab health counters, and the message-queue user side, which repeat the UDP merge.
- `fs`, `lock`, `sched`, `syscall`, `mem/dr_snoop`, `mem/oom_killer`, the common command line and thread handling: the same pairing of enter and exit with less state, or easy members.
- The rest of bpftool and blazesym: dumping, foreign calls and plumbing.
