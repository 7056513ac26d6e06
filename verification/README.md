# Verified models of g3

A Dafny model of the parts of g3 whose correctness is hard to see from
one function: how changes travel through the registries of a running proxy, how two address queries are
raced, how a log client, a key server and a password cache keep their promises over whole runs, and the
byte formats and small algorithms around them. `dafny verify dfyconfig.toml` checks everything.

| file | component |
|---|---|
| `Topology.dfy` | the topology map that g3-daemon builds over named configurations |
| `Escapers.dfy` | g3proxy's escaper registry: who depends on whom, who recognises whom, which handles are current |
| `EscaperOps.dfy` | spawning, reloading and deleting an escaper, with the propagation to its dependents |
| `EscaperLoad.dfy` | `load_all` of the escapers |
| `OpsLocks.dfy` | the five operation locks of g3proxy and the operations that nest them |
| `ResolveJobs.dfy` | the Happy Eyeballs job and the arrive-first job over two address queries |
| `Fluentd.dfy` | the IO thread of the fluentd log client |
| `KeyServers.dfy` | g3keymess' server registry, its counters, its offline list and its force-quit timers |
| `Tlv.dfy`, `Keyless.dfy` | the tag-length-value parser, and Keyless requests and responses on top of it |
| `Leb128.dfy` | 32-bit LEB128 numbers |
| `PasswordCache.dfy` | the per-thread LRU cache of good passwords |
| `LocalDeps.dfy` | the release script that finds the local crates below a component |
| `Dispatch.dfy` | the round-robin dispatcher of g3keymess |
| `CertAgent.dfy` | the messages between a proxy and its certificate generator |
| `MetricValue.dfy` | sums of integer metric values |
| `Basics.dfy` | what several modules share |

Code that changes state is modelled by classes and methods with loops, proved against specification
functions and invariants; the properties of a whole component are lemmas about those. What the code gets
from outside is an arbitrary value: poll results and delays, connect, write and wake-up outcomes, whether a
server can be built or can listen, whether an escaper's constructor fails, whether a worker has room, the
clock, the order of every hash map iteration.

## What the proofs found

- **Escapers: a placeholder hides its dependents.** An escaper that was not there when a dependent was
  built is replaced by a placeholder whose own name is empty. `route_failover`, `route_select` and the
  fallback of `route_query` later recognise their dependencies by the name the captured escaper gives for
  itself, so they are not rebuilt when the real escaper is spawned. `Ops.Install` and `Ops.DeleteExisted`
  state exactly which handles stay behind, in any registry without loops. `OverlookedLoad` is a `load_all`
  that leaves such a handle: a failover is spawned before its next hop is configured. `LoadAll` states that
  a load leaves behind only such handles, and none if no constructor breaks and there is no such case.
- **Escapers: a configuration that is not dependency-closed can loop.** `build_topology_map` looks at the
  new configuration only. If it mentions a name that is no longer configured, the escaper running under
  that name may point back (`NoLoopBefore`, `LoopThroughUnconfigured`), each of the two recognises the
  other, and then the recursive propagation finds more at every depth (`LoopNeverEnds`). With a closed
  configuration every mixture of old and new is loop-free (`MixedLayered`) and the depth is bounded
  (`LayeredEnds`).
- **Topology: the second loop check never fires.** The test in lib/g3-daemon/src/config/topology.rs:70-75
  cannot succeed (`OnlyFinishedBelow`); the first one finds every loop.
- **Fluentd: `passed` counts live writes only.** Events written while draining the retry queue are not
  counted; `Fluentd.Balanced` states what the counters are.
- **LEB128: bits above 2^32 are dropped silently.** A fifth byte above 0x0F is accepted. `ExactValue` says
  that this is the only case in which the value is not that of the bytes.
- **Dispatch: rounds are uneven across the counter's wrap** unless `n * 2^shift` divides 2^64
  (`EvenAcrossWrap`, both directions).
- **Cert agent: distinct keys do not make the order of a map irrelevant**, because a field can be named by
  number and by any spelling of its name (`DistinctKeysDisagree`). `RequestOrder` and `ResponseOrder` give
  the exact condition.
- **Keyless: responses above 65528 payload bytes do not read back** (`ReadsBack`, both directions); the pong
  of a ping that came off the wire is never that long (`PongReadsBack`).

## Model

| member | source | states |
|---|---|---|
| `Topology.TopoMap.AddNodeInternal` | lib/g3-daemon/src/config/topology.rs:39-85 | depth-first insertion terminates on every graph, keeps what is finished, and fails only if the graph has a loop |
| `Topology.TopoMap.Build` | g3proxy/src/config/escaper/mod.rs:238-249 | building the map succeeds if and only if the dependency graph has no loop |
| `Topology.TopoMap.SortedNodes` | lib/g3-daemon/src/config/topology.rs:103-111 | sorting by the number of transitive children lists every configured name once, after all its configured dependencies |
| `Topology.GatheredIsReached` | lib/g3-daemon/src/config/topology.rs:39-85 | what a node gathered is exactly what it reaches by one step or more |
| `Topology.ChildHasFewer` | lib/g3-daemon/src/config/topology.rs:103-111 | a dependency has strictly fewer transitive children than its dependent |
| `Topology.FinishedIsAcyclic` | lib/g3-daemon/src/config/topology.rs:87-101 | if every node could be finished, nothing reaches itself |
| `Topology.OnlyFinishedBelow` | lib/g3-daemon/src/config/topology.rs:70-75 | the gathered children never hold the node being expanded |
| `Topology.RankedIsAcyclic` | g3proxy/src/config/escaper/mod.rs:238-249 | a ranking that every dependency lowers rules out loops |
| `EscaperOps.Ops.GetOrInsertDefault` | g3proxy/src/escape/registry.rs:80-85 | returns the registered handle, or registers a placeholder with a new identity; nobody else's handles get older by it |
| `EscaperOps.Ops.Fetch` | g3proxy/src/escape/route_failover/mod.rs:60-61 | the handles a constructor takes are the registered ones, one for each dependency; only missing names come in, as placeholders |
| `EscaperOps.Ops.Rebuild` | g3proxy/src/escape/registry.rs:64-78 | succeeds if and only if the constructor does not break; a rebuilt escaper keeps its configuration and holds the current handles, a broken one leaves the registry as it was and is recorded |
| `EscaperOps.Ops.UpdateServers` | g3proxy/src/serve/ops.rs:181-203 | every server that uses the escaper gets the registered handle, and no other server changes; a missing escaper becomes a placeholder if and only if a server uses it |
| `EscaperOps.Ops.UpdateDependents` | g3proxy/src/escape/ops.rs:175-199 | the two-pass recursion terminates on a loop-free registry; it tries to rebuild everything at or above a recognised dependent, nothing else, and leaves each current unless its latest rebuild broke, also where dependents depend on each other; no handle gets older anywhere, no other server changes, and only placeholders for what was rebuilt come in |
| `EscaperOps.Ops.ReloadExisted` | g3proxy/src/escape/ops.rs:227-237 | reloading an escaper succeeds if and only if its constructor does not break, leaves it current then, and touches only what is at or above it |
| `EscaperOps.Ops.Install` | g3proxy/src/escape/ops.rs:227-268 | a spawn or a reload succeeds if and only if the constructor does not break; exactly the dependents it finds are rebuilt; the stale handles afterwards are exactly those of the others for this name or stale before; exactly the missing dependencies of what was built come in; servers of the name are current and other servers stay; and if no constructor breaks, all was current and the name is recognised, all is current again |
| `EscaperOps.Ops.DeleteExisted` | g3proxy/src/escape/ops.rs:219-225 | the same for a deletion, which leaves a placeholder if a rebuilt dependent or a server uses the name, and nothing otherwise |
| `EscaperOps.Ops.ReloadUnlocked` | g3proxy/src/escape/ops.rs:201-217 | an equal configuration, or a dummy for a dummy, changes nothing and runs no constructor; any other difference runs the constructor of the new configuration first and installs it or, if that breaks, leaves the old one; the stale handles are stated exactly |
| `EscaperLoad.LoadAll` | g3proxy/src/escape/ops.rs:42-74 | from any loop-free registry and a closed configuration: terminates without a loop; succeeds if and only if the configuration has no loop and no new constructor broke; then every configured name serves its configuration and every other one is a placeholder, else nothing is gone and each escaper runs its old or its wanted configuration; a new constructor is run exactly once for each name that is missing or runs another configuration and for no other, and a configuration in force changes nothing; from an up-to-date registry only overlooked handles are stale afterwards, and where no constructor breaks and nothing is overlooked all handles are current |
| `EscaperLoad.LoadSorted` | g3proxy/src/config/escaper/mod.rs:251-262 | the same for the configurations in dependency-first order |
| `EscaperLoad.LoadNext` | g3proxy/src/escape/ops.rs:49-63 | one configuration more in force, or its constructor broke and nothing but placeholders came in |
| `EscaperLoad.DeleteUnconfigured` | g3proxy/src/escape/ops.rs:65-71 | deleting the unconfigured names in any order keeps the configured ones and leaves placeholders for the others |
| `EscaperLoad.OverlookedLoad` | g3proxy/src/escape/ops.rs:42-74 | a load without any failure after which a failover still holds the placeholder of a configured escaper |
| `EscaperLoad.BehindIsHidden` | g3proxy/src/escape/ops.rs:175-199 | what a step of a load leaves behind is a dependency known by handle only, on a placeholder that becomes real |
| `EscaperLoad.BlindStep` | g3proxy/src/escape/ops.rs:42-74 | an escaper whose only dependency is such a placeholder is never rebuilt by a load and ends with a stale handle |
| `Escapers.Outcome` | g3proxy/src/escape/ops.rs:175-199 | in any registry the stale handles after an operation are exactly those of dependents outside what propagation finds, for the changed name or stale before |
| `EscaperOps.SecondPass` | g3proxy/src/escape/ops.rs:195-198 | propagating once more from a dependent reaches all that is above it |
| `Escapers.RebuiltNoMoreStale` | g3proxy/src/escape/ops.rs:227-237 | rebuilding one escaper and propagating from it leaves no handle stale that was not |
| `Escapers.ReloadStep` | g3proxy/src/escape/ops.rs:227-237 | rebuild, propagation and notification together only improve, and change nothing outside what is above |
| `EscaperLoad.MixedLayered` | g3proxy/src/escape/ops.rs:42-74 | at every step of a load the mixed old and new registry has no loop |
| `Escapers.LayeredEnds` | g3proxy/src/escape/ops.rs:175-199 | in a layered registry the nesting of the propagation is bounded |
| `Escapers.LoopNeverEnds` | g3proxy/src/escape/ops.rs:175-199 | on a loop of escapers that recognise each other there is more to find at every depth |
| `EscaperLoad.NoLoopBefore` | g3proxy/src/escape/ops.rs:42-74 | an old registry and a new configuration, each without a loop |
| `EscaperLoad.LoopThroughUnconfigured` | g3proxy/src/escape/ops.rs:42-74 | whose mixture has a loop of recognition, through a name that is not configured any more |
| `Escapers.SeenNeeds` | g3proxy/src/escape/route_select/mod.rs:277-279 | a dependent is recognised if and only if it tracks the name itself, or holds a handle that gives that name |
| `OpsLocks.OperationAscending` | g3proxy/src/escape/ops.rs:125-173 | every operation, with any recursion below it, takes its locks in one global order and none twice |
| `OpsLocks.EscaperChangesAscending` | g3proxy/src/escape/ops.rs:175-268 | escaper changes take only the server lock inside the escaper lock |
| `OpsLocks.ResolverChangesAscending` | g3proxy/src/resolve/ops.rs:158-191 | resolver changes take the escaper lock, and the server lock in it |
| `OpsLocks.AuditorChangesAscending` | g3proxy/src/audit/ops.rs:99-118 | auditor changes take the server lock, then the escaper lock |
| `OpsLocks.UserGroupChangesAscending` | g3proxy/src/auth/ops.rs:98-118 | user group changes take the server lock |
| `OpsLocks.LaunchOrderly` | g3proxy/src/serve/ops.rs:181-251 | the lock instructions of an operation nest, ascend and release all |
| `OpsLocks.LaunchTakes` | g3proxy/src/resolve/ops.rs:158-191 | exactly the locks an operation takes, in order, and what it holds at each: a resolver change the escaper lock and in it the server lock for each rebuild, an auditor change the server lock and then the escaper lock, and so on |
| `OpsLocks.LaunchTimes` | g3proxy/src/audit/ops.rs:99-118 | how often each lock is taken: the escaper lock once for each change of a resolver or an auditor, the server lock once for each change of an auditor, a user group or an escaper and once for each escaper rebuilt |
| `OpsLocks.ReloadTakes` | g3proxy/src/escape/ops.rs:227-237 | a rebuild takes what its propagation takes and then the server lock once; a failed one takes none |
| `OpsLocks.ThreeAtOnce` | g3proxy/src/escape/ops.rs:125-148 | a reachable state in which one operation holds the resolver, the escaper and the server lock together |
| `OpsLocks.StepKeepsInvariant` | g3proxy/src/escape/ops.rs:125-173 | a step of any task keeps: one holder for each lock, every task orderly |
| `OpsLocks.RunKeepsInvariant` | g3proxy/src/escape/ops.rs:125-173 | that holds in every state that any concurrent operations can reach |
| `OpsLocks.NoDeadlock` | g3proxy/src/resolve/ops.rs:29-61 | in no reachable state does a set of operations wait for itself |
| `OpsLocks.SomeoneCanStep` | g3proxy/src/audit/ops.rs:21-55 | while an operation is unfinished, some operation can go on |
| `OpsLocks.EveryRunCompletes` | g3proxy/src/auth/ops.rs:21-54 | every run is finite, one that cannot go on has finished every operation, and a finished one took a step for each lock instruction |
| `ResolveJobs.HappyEyeballs.Redirected` | g3proxy/src/resolve/handle.rs:93-142 | fixed addresses are split by the query strategy, an empty preferred list coming second |
| `ResolveJobs.HappyEyeballs.Dyn` | g3proxy/src/resolve/handle.rs:144-210 | the preferred family is query 1 |
| `ResolveJobs.HappyEyeballs.PollH1End` | g3proxy/src/resolve/handle.rs:212-240 | gives query 1's outcome and never polls it again |
| `ResolveJobs.HappyEyeballs.PollH2End` | g3proxy/src/resolve/handle.rs:212-240 | gives query 2's outcome and never polls it again |
| `ResolveJobs.HappyEyeballs.GetR1OrFirstDone` | g3proxy/src/resolve/handle.rs:242-306 | for every schedule and delay the first stage reports the outcome that the closed form of the race names, owes the other one, and polls no job that was Ready |
| `ResolveJobs.HappyEyeballs.Race` | g3proxy/src/resolve/handle.rs:256-306 | the race of the two queries is decided as the closed form says |
| `ResolveJobs.HappyEyeballs.WaitForH1` | g3proxy/src/resolve/handle.rs:281-296 | within the delay the preferred query still wins if it brings addresses |
| `ResolveJobs.HappyEyeballs.GetR2OrNever` | g3proxy/src/resolve/handle.rs:317-346 | the second stage reports what is owed exactly once, then never again |
| `ResolveJobs.BothStages` | g3proxy/src/resolve/handle.rs:242-346 | both stages together: each query reported once, every further second-stage call waits forever, none polled after it was Ready |
| `ResolveJobs.FirstReportRules` | g3proxy/src/resolve/handle.rs:242-306 | the two reports are the two outcomes; the first is an error only if neither query has an address; which one comes first in every case: with query 1 no later, with query 2 first and empty or failed, within the resolution delay and after it |
| `ResolveJobs.ExhaustedOnceReady` | g3proxy/src/resolve/handle.rs:242-346 | a job counts as exhausted from its answer on and not before |
| `ResolveJobs.PickMany` | lib/g3-types/src/resolve/strategy.rs:123-136 | at most the wanted number of the given addresses, none invented, in order unless random |
| `ResolveJobs.ArriveFirst.PollAllAddrs` | g3proxy/src/resolve/handle.rs:392-442 | Pending only after every kept query was polled Pending in this call; Ready with what the race promised; finished queries are dropped |
| `ResolveJobs.ArriveFirst.PollToEnd` | g3proxy/src/resolve/handle.rs:392-442 | polling ends, with the promised outcome |
| `ResolveJobs.ArrivedHasAddress` | g3proxy/src/resolve/handle.rs:392-442 | the outcome has addresses if and only if one of the queries has; of two with addresses the earlier wins, and query 1 at a tie |
| `Fluentd.IoThread.PushToRetry` | lib/g3-fluentd/src/lib.rs:194-202 | the event is queued; when the queue is full the oldest one gives way and is counted |
| `Fluentd.IoThread.Write` | lib/g3-fluentd/src/lib.rs:165-180 | the outcome of the write decides: a success is written and counted, a timeout dropped and counted, a failure leaves the event in hand |
| `Fluentd.IoThread.DrainOne` | lib/g3-fluentd/src/lib.rs:139-155 | the oldest queued event is tried; a failed write puts it back at its place, a timeout drops and counts it |
| `Fluentd.IoThread.Drain` | lib/g3-fluentd/src/lib.rs:139-155 | draining tries event after event until the queue is empty or, for the first time, a write fails |
| `Fluentd.IoThread.Live` | lib/g3-fluentd/src/lib.rs:159-180 | an event received while connected is written, dropped or queued exactly as its write succeeds, times out or fails |
| `Fluentd.IoThread.Queue` | lib/g3-fluentd/src/lib.rs:114-118 | an event received without a connection is queued, and the oldest one is lost if and only if there was no room |
| `Fluentd.IoThread.RunWithConnection` | lib/g3-fluentd/src/lib.rs:130-192 | goes on until the first failed write, byte from the server, failed flush or closed channel, and no longer; with a closed channel the queue is empty |
| `Fluentd.IoThread.RunWithoutConnection` | lib/g3-fluentd/src/lib.rs:110-128 | writes nothing, goes on until the delay is over or the channel is closed, and reports how many events it dropped |
| `Fluentd.IoThread.RunToEnd` | lib/g3-fluentd/src/lib.rs:73-108 | one phase for each connect, each but the last ended by a loss or a delay; it stops only when the channel is closed or a script is over |
| `Fluentd.WholeRun` | lib/g3-fluentd/src/lib.rs:73-202 | at any moment of any run: the writes tried and the wake-ups are those of the phases, in the order of their scripts; every event heard is accounted for; written is what writes succeeded for, in order; dropped is what writes timed out for and what the queue had no room for, and is counted; the queue is within its bound; and the run stopped only for one of the reasons above |
| `Fluentd.PhaseEnds` | lib/g3-fluentd/src/lib.rs:110-192 | what ends a phase with a connection and one without, and that nothing before its end does |
| `Fluentd.FirstIsCrowded` | lib/g3-fluentd/src/lib.rs:194-202 | an event is given up for want of room only when a whole queue of later events has been received |
| `Fluentd.BalancedWrite` | lib/g3-fluentd/src/lib.rs:139-180 | written, dropped and both counters stay those of the writes tried |
| `Fluentd.WrittenIsSubsequence` | lib/g3-fluentd/src/lib.rs:73-202 | what was written is a subsequence of what was received, without repetition |
| `Fluentd.OneFate` | lib/g3-fluentd/src/lib.rs:73-202 | each received event is exactly one of written, queued and dropped |
| `KeyServers.Registry.StartRuntime` | g3keymess/src/serve/server.rs:210-217 | counts the server online once, or nothing if it cannot listen |
| `KeyServers.Registry.AbortRuntime` | g3keymess/src/serve/server.rs:219-223 | takes that back |
| `KeyServers.Registry.Insert` | g3keymess/src/serve/registry.rs:56-66 | exactly the new server gains and the replaced one loses a count, on statistics they may share |
| `KeyServers.Registry.Register` | g3keymess/src/serve/registry.rs:112-119 | every registered server's statistics keep count one, all others zero; a failed listen changes nothing |
| `KeyServers.Registry.PrepareInitial` | g3keymess/src/serve/server.rs:102-121 | a first generation has statistics of its own that count nothing yet |
| `KeyServers.Registry.PrepareReload` | g3keymess/src/serve/server.rs:123-144 | the next generation shares the statistics, and the duration statistics if and only if their configuration is the same |
| `KeyServers.Registry.SpawnNew` | g3keymess/src/serve/ops.rs:106-111 | succeeds if it can be built and listen; only that name changes |
| `KeyServers.Registry.Reload` | g3keymess/src/serve/registry.rs:103-119 | fails for an unknown name; otherwise the new generation takes over with the old statistics and the old one goes offline |
| `KeyServers.Registry.Del` | g3keymess/src/serve/registry.rs:76-82 | the server goes offline and its counts to zero |
| `KeyServers.Registry.LoadAll` | g3keymess/src/serve/ops.rs:54-70 | succeeds if and only if every configured server can be built and can listen; up to the first failure the configurations done are in force and the rest untouched |
| `KeyServers.Registry.DeleteUnconfigured` | g3keymess/src/serve/ops.rs:72-78 | exactly the unconfigured names go, all to the offline list |
| `KeyServers.Registry.SpawnAll` | g3keymess/src/serve/ops.rs:49-81 | succeeds if and only if every configured server can be built and can listen; then the registered names and configurations are the configured ones, on failure nothing is deleted; a name keeps its statistics, whoever left is offline and nobody else joined the offline list, the counts are right either way |
| `KeyServers.Registry.StartTask` | g3keymess/src/serve/stats.rs:184-189 | the alive counter is the number of running tasks of all generations |
| `KeyServers.Registry.EndTask` | g3keymess/src/serve/stats.rs:206-210 | and stays so when a task ends |
| `KeyServers.Registry.RetainOne` | g3keymess/src/serve/registry.rs:28-42 | keeps a server if and only if it has tasks or another reference, and schedules its quit at most once |
| `KeyServers.Registry.RetainOffline` | g3keymess/src/serve/registry.rs:26-44 | a server leaves the offline list exactly when no task of its name runs and nobody refers to it; a timer is started, once, exactly for the offline servers whose name has tasks; each server has at most one timer, and a registered one none |
| `KeyServers.Registry.Fire` | g3keymess/src/serve/registry.rs:34-38 | a timer never force-quits a registered server |
| `KeyServers.Registry.ForceQuitOffline` | g3keymess/src/serve/ops.rs:171-175 | exactly the offline servers are told to quit |
| `KeyServers.Registry.StopAll` | g3keymess/src/serve/ops.rs:83-90 | nothing counts as online afterwards and every server is offline |
| `KeyServers.LoadedStep` | g3keymess/src/serve/ops.rs:54-70 | one more configuration in force |
| `KeyServers.LoadedContinued` | g3keymess/src/serve/ops.rs:72-78 | deletions afterwards keep everybody accounted for |
| `KeyServers.KeptMembers` | g3keymess/src/serve/registry.rs:28-43 | filtering keeps exactly the wanted servers |
| `Tlv.Parse` | lib/g3-codec/src/tlv.rs:17-41 | for any visitor: the items in front are visited in order until one is refused, and the parse is complete exactly when nothing is left and something was there |
| `Tlv.SplitIsEncoding` | lib/g3-codec/src/tlv.rs:17-41 | any buffer is the encoding of what is visited, and a rest that starts no item |
| `Tlv.SplitEncode` | lib/g3-codec/src/tlv.rs:51-75 | splitting an encoding gives the items back |
| `Tlv.CompleteIsEncoding` | lib/g3-codec/src/tlv.rs:17-41 | the buffers taken to the end are exactly the encodings of non-empty lists, each of one list only |
| `Keyless.Request.ParseTlv` | g3keymess/src/protocol/request.rs:57-89 | the request becomes what its items say, up to the first bad one |
| `Keyless.Request.Read` | g3keymess/src/protocol/request.rs:102-164 | reading a stream gives the request or the error that the bytes determine |
| `Keyless.Request.CheckDigest` | g3keymess/src/protocol/request.rs:242-250 | a payload of the wrong size is answered by a format error under the same id |
| `Keyless.Request.VerifyOpcode` | g3keymess/src/protocol/request.rs:166-240 | accepts exactly the known opcodes, a signature only over a digest of its hash's size, and answers the others with the right error |
| `Keyless.OpcodeTable` | g3keymess/src/protocol/request.rs:166-240 | the opcodes of each family with their hashes, the sizes of the digests, and the two error codes |
| `Keyless.Request.PingPong` | g3keymess/src/protocol/request.rs:262-268 | a ping, and nothing else, is answered by a pong with its id and payload |
| `Keyless.PongIsFrame` | g3keymess/src/protocol/response.rs:17-39 | a pong is the common frame with opcode 0xF2 |
| `Keyless.ErrorIsFrame` | g3keymess/src/protocol/response.rs:117-153 | an error response is the common frame with opcode 0xFF and its code |
| `Keyless.DataResponse.Fill` | g3keymess/src/protocol/response.rs:64-66 | writes the payload and leaves the bytes around it |
| `Keyless.DataResponse.FinalizePayload` | g3keymess/src/protocol/response.rs:68-79 | patching the lengths makes the common frame of the first bytes of the payload |
| `Keyless.ReadsBack` | g3keymess/src/protocol/response.rs:16-80 | a response reads back with its id, opcode and payload, whatever follows it, if and only if the payload has at most 65528 bytes |
| `Keyless.VisitMeans` | g3keymess/src/protocol/request.rs:64-88 | items are taken if and only if every opcode item is one byte long, and then key identifier, opcode and payload are what their last items say |
| `Keyless.LastValueIs` | g3keymess/src/protocol/request.rs:64-88 | the last of several items with a tag counts |
| `Keyless.DecodeAccepts` | g3keymess/src/protocol/request.rs:102-164 | a stream is taken if and only if it has a header of version 1.0 and the bytes it announces, and these encode one or more items with one-byte opcodes; the message has the id of the header and what its items say |
| `Keyless.DecodeRefuses` | g3keymess/src/protocol/request.rs:102-164 | the error of every other stream: closed early or failed by the number of messages before, another version, a bad opcode item, a corrupted message |
| `Keyless.BodyBound` | g3keymess/src/protocol/request.rs:132-164 | what was read leaves room in the message for the opcode that came with it |
| `Keyless.PongReadsBack` | g3keymess/src/protocol/request.rs:262-268 | the pong of any ping read off the wire is not cut short and reads back |
| `Leb128.Decode` | lib/g3-codec/src/leb128.rs:34-66 | up to the first ending byte, modulo 2^32; needs more data if there is none yet, fails after five; no shift by 32 or more |
| `Leb128.DecodedWhen` | lib/g3-codec/src/leb128.rs:34-66 | which bytes give a number, which need more data and which have no end, and what the number is |
| `Leb128.Encoder.EncodeU32` | lib/g3-codec/src/leb128.rs:73-88 | writes the shortest encoding, at most five bytes, and nothing behind it |
| `Leb128.RoundTrip` | lib/g3-codec/src/leb128.rs:34-66 | decoding an encoding followed by anything gives the number and the length |
| `Leb128.PrefixNeedsMore` | lib/g3-codec/src/leb128.rs:50-64 | every proper prefix of an encoding needs more data |
| `Leb128.ExactValue` | lib/g3-codec/src/leb128.rs:50-62 | the value is that of the bytes if and only if a fifth byte is at most 0x0F |
| `Leb128.Canonical` | lib/g3-codec/src/leb128.rs:34-88 | the bytes read are the encoding of the value if and only if, besides, they do not end in a needless zero |
| `Leb128.NextBits` | lib/g3-codec/src/leb128.rs:51-52 | or-ing in the shifted seven bits adds them, modulo 2^32 |
| `PasswordCache.Cache.HasValidPassword` | g3proxy/src/auth/cache.rs:46-72 | true if and only if the latest save of this login has not expired and its user was not pushed out since; the user becomes the most recent one, and a login that is not good is forgotten |
| `PasswordCache.Cache.SaveUserPassword` | g3proxy/src/auth/cache.rs:74-95 | the login is held until it expires or is pushed out; the group has at most the requested number of users, and exactly those with fewer others more recent |
| `PasswordCache.SaveKeeps` | g3proxy/src/auth/cache.rs:83-90 | resizing and inserting together keep exactly the users with fewer than the requested number of others used since |
| `PasswordCache.PromoteKeeps` | g3proxy/src/auth/cache.rs:57-59 | a lookup puts its user in front and pushes nobody out |
| `PasswordCache.SaveKnown` | g3proxy/src/auth/cache.rs:88-93 | what the cache lists is what was saved last, or has expired |
| `LocalDeps.ParsesBack` | scripts/release/list_local_deps.py:17-21 | a dependency written as a name, with a version, or with a version and a source is read back as that name and version |
| `LocalDeps.Search.GetDirectDependencies` | scripts/release/list_local_deps.py:8-23 | the dependencies of every matching package, each once |
| `LocalDeps.Search.FindRecursiveDependencies` | scripts/release/list_local_deps.py:26-32 | terminates on any lock file; what it adds is reachable, and closed but for what was there before |
| `LocalDeps.Search.FindMatchingCrates` | scripts/release/list_local_deps.py:46-51 | the package names that start with the component's |
| `LocalDeps.Search.FindAll` | scripts/release/list_local_deps.py:65-67 | the set ends as exactly what some matching crate reaches by one edge or more |
| `LocalDeps.Search.CheckAndPrint` | scripts/release/list_local_deps.py:35-43 | prints a name if and only if a matching package has no source |
| `LocalDeps.Search.PrintAll` | scripts/release/list_local_deps.py:69-70 | the names printed are those of the local packages found |
| `LocalDeps.ClosedHasPath` | scripts/release/list_local_deps.py:26-32 | a closed set with a node's dependencies has all the node reaches |
| `LocalDeps.ReachedFrom` | scripts/release/list_local_deps.py:65-67 | membership is reachability, both ways |
| `Dispatch.Dispatcher.Register` | g3keymess/src/backend/dispatch.rs:99-111 | adds a worker and sets the shift |
| `Dispatch.Dispatcher.Dispatch` | g3keymess/src/backend/dispatch.rs:43-48 | the request goes to the end of the queue of the worker the counter names and to no other, or comes back unchanged; the counter advances either way |
| `Dispatch.Dispatcher.LogIsCounted` | g3keymess/src/backend/dispatch.rs:43-48 | the dispatches a worker got are those counted by the lemmas |
| `Dispatch.EvenWindow` | g3keymess/src/backend/dispatch.rs:43-48 | before the wrap, any n times 2^shift dispatches in a row give each of n workers exactly 2^shift |
| `Dispatch.TargetInBlock` | g3keymess/src/backend/dispatch.rs:43-48 | the workers take turns in the order of registration, 2^shift dispatches each |
| `Dispatch.NearlyEven` | g3keymess/src/backend/dispatch.rs:43-48 | before the wrap, after any number of dispatches two workers differ by at most 2^shift |
| `Dispatch.EvenAcrossWrap` | g3keymess/src/backend/dispatch.rs:43-48 | all rounds are even, those across the wrap too, if and only if n times 2^shift divides 2^64 |
| `CertAgent.ParseRequest` | lib/g3-cert-agent/src/request.rs:61-143 | a request is refused for a bad or unknown entry or for want of a host; else each field has what was put there last |
| `CertAgent.ParseResponse` | lib/g3-cert-agent/src/response.rs:36-120 | a response is refused for a bad entry only, ignores unknown keys, and each field has what was put there last |
| `CertAgent.HandleResponse` | lib/g3-cert-agent/src/query.rs:71-93 | an accepted reply has certificates and a key, and lives at most the protective or the maximum time; a time within bounds is kept |
| `CertAgent.RequestOrder` | lib/g3-cert-agent/src/request.rs:126-143 | every order of the entries gives the same request if and only if an entry is bad, no host is given, or no field is given two values |
| `CertAgent.ResponseOrder` | lib/g3-cert-agent/src/response.rs:110-120 | every order gives the same response if and only if an entry is bad or no field is given two values |
| `CertAgent.DistinctKeysDisagree` | lib/g3-cert-agent/src/request.rs:61-118 | two entries with different keys whose order matters |
| `CertAgent.QueryReads` | lib/g3-cert-agent/src/lib.rs:70-100 | an encoded query is accepted if and only if it has a host, and then read as what it asks, with the certificate to mimic if one was sent |
| `CertAgent.ReplyReads` | lib/g3-cert-agent/src/request.rs:145-177 | an encoded reply is read as what was put in it |
| `CertAgent.RoundTrip` | lib/g3-cert-agent/src/lib.rs:103-113 | a query with a host, answered, comes back under an equal key with the certificates, key and lifetime sent |
| `CertAgent.RequestNames` | lib/g3-cert-agent/src/protocol.rs:6-18 | a request key means the same field by name and by number |
| `CertAgent.ResponseNames` | lib/g3-cert-agent/src/protocol.rs:20-36 | so does a response key, though some numbers differ from the request's |
| `CertAgent.NoEntries` | lib/g3-cert-agent/src/response.rs:25-34 | an empty request is refused; an empty response has the defaults and the protective time |
| `CertAgent.UnknownKeys` | lib/g3-cert-agent/src/response.rs:36-108 | a key that names no field is refused in a request and passed over in a response |
| `CertAgent.ReadByName` | lib/g3-msgpack/src/value/tls.rs:13-66 | a service and a usage are read alike from their name, as text or bytes, and from their number |
| `CertAgent.ReadByNumber` | lib/g3-msgpack/src/value/tls.rs:27-33 | which numbers are a service, a usage or a lifetime |
| `CertAgent.ServiceSpellings` | lib/g3-types/src/net/tls/service_type.rs:57-64 | every spelling of each service, and no other |
| `CertAgent.UsageSpellings` | lib/g3-types/src/net/tls/cert_usage.rs:60-74 | every spelling of each usage, and no other |
| `CertAgent.BareHost` | lib/g3-cert-agent/src/request.rs:126-143 | a request that is no map is its host with the defaults, if that is text, bytes of text or a number, and not empty; a response must be a map |
| `CertAgent.OneElement` | lib/g3-msgpack/src/value/openssl.rs:11-29 | an element without a certificate is refused |
| `CertAgent.ChainsJoin` | lib/g3-msgpack/src/value/openssl.rs:31-43 | a chain has the certificates of all elements in order, and is refused with any of them |
| `CertAgent.PemOrDer` | lib/g3-msgpack/src/value/openssl.rs:45-70 | a certificate and a key are PEM as text and DER as bytes |
| `CertAgent.RequestStep` | lib/g3-cert-agent/src/request.rs:61-118 | setting an entry changes its own field only |
| `CertAgent.ResponseStep` | lib/g3-cert-agent/src/response.rs:36-108 | the same for a response |
| `MetricValue.Sum` | g3statsd/src/types/value.rs:122-126 | adding up any integer values gives their total |
| `MetricValue.AddNext` | g3statsd/src/types/value.rs:88-120 | adding the next value to a total gives the next total, whatever wrapped before |
| `MetricValue.TotalAnyOrder` | g3statsd/src/types/value.rs:88-126 | the total is the same in every order |
| `MetricValue.TotalExact` | g3statsd/src/types/value.rs:88-126 | the total is the true sum modulo 2^64, signed if and only if a value is, and exact if and only if the true sum fits its type |

## Left out

- Sockets, TLS and OpenSSL, tokio runtimes, timers and channels: only their outcomes and schedules are modelled, as arbitrary inputs.
- EscaperLoad.LoadAll: requires a dependency-closed configuration, without which a loop can arise on the way (`LoopThroughUnconfigured`). That an overlooked handle stays behind is stated if it is the only dependency of its escaper; with other dependencies it may be rebuilt on their account. From a registry that already has stale handles, only the absence of loops, the configurations and the servers are stated. Whether a constructor is run for a configured dummy that is missing is left open if dependencies are missing too, because a placeholder may have taken its place by then.
- EscaperOps.Ops.Rebuild: an escaper's constructor is taken to fetch its handles before it can break. Whether it breaks is an arbitrary function of its name and of the number of constructors run before.
- Escaper names are taken to be non-empty; what an escaper does with its traffic is not modelled.
- OpsLocks: what the operations do to the registries; an operation is the tree of the locks it takes, of any shape and depth. Operations are taken to run to their end once they hold a lock.
- ResolveJobs: the resolver behind a query, which is a number of empty polls and an outcome; cancellation of a stage between its polls.
- Fluentd.IoThread.RunToEnd: connection set-up and the fluentd handshake are one outcome; bytes are not modelled.
- KeyServers: the lazy start (`create_all_stopped`, `start_all_stopped`), in which servers are registered before they count as online, and what happens after `stop_all` beyond the force-quit.
- KeyServers.Registry.RetainOffline: the number of references to a server is given from outside.
- Keyless.Request.Read: the error for a message of invalid length, which a reader that fills the whole buffer or fails cannot cause; an end of stream and a failed read are one case.
- Keyless: signing and decrypting, the lookup of keys, and the payload check against the key size.
- Leb128.Encoder.EncodeU32: bit masks and right shifts are written as remainder and division.
- PasswordCache: sharing between threads (there is none) and the hash function.
- LocalDeps.Search.FindRecursiveDependencies: Python's recursion limit.
- Dispatch.Dispatcher.Dispatch: a dispatcher without workers, which the program panics on, and shifts of 64 or more; concurrent dispatches are one sequence, in the order of their counter values.
- CertAgent: MessagePack bytes, Unicode case folding, and the parsing of PEM, DER and decimal text, which are arbitrary functions; the cache behind the query handle.
- MetricValue: floating point values, whose sum depends on the order.
- Configuration parsing, logging, command lines, control sockets, and the registries of g3tiles and g3statsd, which repeat the patterns modelled here.
