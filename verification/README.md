# Window, stream and shutdown logic of the agent and the probe, in Dafny

A model of the stateful cores of two programs, with proofs about all of their runs:

- the **agent's metrics pipeline** (Rust): the sliding-window quadruple generator with its ring of
  connection counters, the collector stash with its packed key, the minute flow aggregator with its
  throttle, the application-layer generator, the sorted-vector set, and the state that starts and stops
  the main loop;
- the **probe's byte streams** (C): a captured buffer is cut into indexed messages, queued, joined and
  parsed into frames by a label-driven loop.

Code that changes fields step by step is a class whose methods are proved against functions on values
(`StreamObject`, `QuadrupleObject`, `CollectorObject`, `FlowAggrObject`, `L7Object`, `ThrottlingQueue`,
`U16Set`); code that computes a value is a function. What is promised of whole runs is proved about those
functions, against references that do not know the windows, rings or queues: plain sums over the accepted
input, a greedy decoder on bytes, a fold over slots, sets.

`dafny verify dfyconfig.toml` checks the project.

## Results

| theme | main statements |
|---|---|
| Bytes in, frames out | `StreamRuns.ReassemblyDependsOnBytesOnly`, `ConnData.KernelCutReassembles`, `ConnData.SessionCutReassembles`, `Reassembly.RunAccounts` |
| The parse loop stops | `ParseTermination.HaltsIffNeverStuck`, `StreamLivelock.QueueSafeIffAllJoin`, `StreamLivelock.QueueSafeIffNoTwins`, `ParseTermination.EndsOnlyFor` |
| Sampling is fair until it is cut | `Reservoir.Uniform`, `Reservoir.CutShares`, `Reservoir.CutFairIff` |
| The generator is a group-by with loads | `QuadrupleRuns.EveryRunGroupsBy`, `QuadrupleRuns.EveryLoadIsFold`, `QuadrupleTotals.EveryFieldConserves`, `QuadrupleTotals.EveryRunAccounts` |
| The collector is a group-by, and drops nothing the generator sends in time | `CollectorFlows.EveryRunCountsFlows`, `Pipeline.StartedTogether`, `TickMargin.RecordLateIff`, `TickMargin.InStepNeverLate`, `CollectorClock.CheckedRunIff` |
| Which tags share a document | `StashKey.KeysCollide`, `StashKey.BuiltKeysCollide`, `StashKey.SingleKeyIsOwnIff` |
| The aggregator keeps its slots exact | `FlowAggrRuns.EveryRunGroups`, `FlowAggrRuns.EveryRecordSumsUp`, `FlowAggrRuns.EveryRunAccounts` |
| Nothing is counted twice, or lost without reason | `L7Runs.EveryRunAccounts`, `L7Waiting.EveryWaitIsSum`, `L7Waiting.OneProtocolLosesNone`, `L7Origins.EveryReportOnce`, `L7Origins.AtMostOneRecord`, `L7Origins.EveryRecordIsSum` |
| The sorted vector is a set | `U16Set.EveryRunIsSet` |
| Stopping is never lost, a configuration can be | `AgentRuns.NeverLeftAsleep`, `AgentRuns.StopsAfterTerminate`, `AgentRuns.StopEnds`, `AgentRuns.ChangeIsHeard`, `AgentRuns.AsleepOnConfigIff` |

Where a promise fails, the code is kept as it is, the failing family is shown, and the exact condition is
proved:

- the parse loop stops with every parser that only moves forward if and only if each queued chunk joins the one
  before it (`QueueSafeIffAllJoin`; `StubbornTrap` is the parser that two other neighbours trap), and with every
  parser that also accepts chunks flagged as broken if and only if no neighbours share a nonzero index
  (`QueueSafeIffNoTwins`, `TwinsTrap`);
- a parser that moves before it asks for more loses exactly the bytes it passed (`MovingBeforeAskingLoses`);
- a lower flow-log threshold cuts the sample before it is forwarded (`LoweredThresholdLoses`); nothing is cut if
  and only if the period or the old throttle fits the new one (`NothingCutIff`). A cut also ends fairness: the
  first flows of the period keep their share, the next are never forwarded and the others have less (`CutShares`,
  `CutNeverForwards`), and it favours no flow if and only if it cuts nothing or everything (`CutFairIff`);
- the edge layout without MAC drops the application protocol (`EdgeAppLosesProtocol`); the two tap types wider than
  a byte, `Max` and `Unknown`, run into the code bits and the protocol. Among the tap types the agent has, a
  single-ended key is one tag's alone if and only if the tap type is from 1 to 255, or `Any` or `Max` under certain
  codes (`SingleKeyIsOwnIff`); `Unknown` hides codes (`UnknownTapTypeHidesCode`) and edge protocols
  (`UnknownTapTypeHidesProtocol`). `BuiltKeysCollide` says of all tags the agent builds which share a key, and
  `KeysCollide` of all tags;
- a tick of an idle collector can lose a record that is still on its way (`TickLosesRecord`). In a collector that
  starts no later than the generator a record is late if and only if an earlier tick came when its slot was closed
  by the clock (`RecordLateIff`), which no tick does that is in step with the generator up to the margin between
  their delays (`InStepNeverLate`). The margin is five seconds, but a minute collector loses it as the configured
  delay grows, and has none from 59 seconds on (`ConfiguredMargin`);
- in a build with overflow checks the collector panics on a flow ahead of the clock (`AheadPanics`); a run goes
  through if and only if each input is late or its slot has begun by the clock (`CheckedRunIff`);
- the main loop can fall asleep on a configuration just stored (`UpdateCanBeMissed`). It sleeps on the latest one if
  and only if it was on its way to wait when that was stored and has handled no wake-up since (`AsleepOnConfigIff`);
- application meters drained by the arrival of a flow leave with that arrival's time span (`FirstSpanIsLost`,
  `SpanLostFromStart`); they keep their own if and only if all that leave were gathered under it
  (`DrainKeepsSpansIff`).

## Assumptions

- Protocol parsers are values. All results ask that positions only move forward (`DataStream.Monotone`) and, where
  the loop is to stop, that a frame takes a byte (`Advances`). The reassembly results also ask that on chunks not
  flagged as broken the parser reads a prefix-stable protocol (`Reassembly.PrefixStable`, `Implements`). What it
  does with broken chunks matters only to `NoTwinsHalts`, `TwinsTrap`, `QueueSafeIffNoTwins`, `ParseAllStep` and
  `EndIsParseAll`, which name it (`AcceptsBroken`).
- Clocks and random draws are inputs. Queue sends succeed. The least-recently-used maps do not evict.
- Counters are unbounded and meters keep the additive fields named in each module.
- Hash maps are traversed in any order.
- The application-layer generator of the model numbers the reports (`seen`) and notes in each meter the numbers
  it is made of (`origin`); the program has neither, and no branch looks at them.
- The `Relaxed` accesses to the terminated flag are modelled as sequentially consistent steps.

## Model

| member | source | states |
|---|---|---|
| `DataStream.OverlayKeeps` | l7probe/data_stream.c:176-214 | joining the two front chunks keeps every later chunk untouched and never creates neighbours with one nonzero index |
| `DataStream.ParseStepKeeps` | l7probe/data_stream.c:288-353 | whatever the parser answers, one parse keeps the queue well shaped and free of twin indices |
| `DataStream.StepKeeps` | l7probe/data_stream.c:356-421 | the same for each label of the loop |
| `ParseTermination.OverlayShrinks` | l7probe/data_stream.c:176-214 | joining either changes nothing, exactly for unjoinable fronts, or shrinks the queue measure |
| `ParseTermination.ParseShrinks` | l7probe/data_stream.c:288-353 | a parse that does not end the loop shrinks (chunks, not broken, not flagged, unread bytes), unless it asks in vain for more |
| `ParseTermination.StepShrinks` | l7probe/data_stream.c:356-421 | the same for every label of the loop |
| `ParseTermination.ParseAllStep` | l7probe/data_stream.c:356-421 | under the parser contract the whole loop is defined by its steps, each of which shrinks the measure |
| `ParseTermination.StuckForever` | l7probe/data_stream.c:176-197 | an unjoinable front on which the parser asks for more is met again after three labels, for ever |
| `ParseTermination.HaltsIffNeverStuck` | l7probe/data_stream.c:356-421 | for any advancing parser and any queue, the loop stops if and only if it never meets such a front |
| `ParseTermination.EndIsUnique` | l7probe/data_stream.c:356-421 | the loop has at most one configuration in which it ends |
| `ParseTermination.NoTwinsHalts` | l7probe/data_stream.c:356-421 | distinct neighbouring indices and a parser that accepts broken chunks are enough to stop |
| `ParseTermination.StopsExactly` | l7probe/data_stream.c:288-421 | a step ends the loop if and only if nothing is queued, the parser gives up, a frame finds the buffer full, or the only chunk asks for more; only a chunk it gives up on is taken off |
| `ParseTermination.EndsOnlyFor` | l7probe/data_stream.c:326-391 | with a parser that never gives up, however many chunks fail, the loop ends only with the queue used up, the buffer full, or one chunk left that asks for more |
| `ParseTermination.TwiceInvalidIsSkipped` | l7probe/data_stream.c:322-332 | a chunk that fails to parse twice is taken off and the loop goes on with the rest of the queue |
| `ParseTermination.BackToBack` | l7probe/data_stream.c:300-318 | frames that follow each other in a chunk are parsed without a boundary search in between |
| `ParseTermination.JoinedStartsOver` | l7probe/data_stream.c:146-174 | a chunk joined with the next starts over with the joined bytes, and may fail once more |
| `ParseTermination.FramesFit` | l7probe/data_stream.c:29-40 | the frame buffer is never overrun |
| `StreamLivelock.TwinsTrap` | l7probe/data_stream.c:189-197 | every unflagged queue with two neighbours of one nonzero index traps some parser that keeps its contract |
| `StreamLivelock.QueueSafeIffNoTwins` | l7probe/data_stream.c:176-197 | for every queue as it was filled: all contract-keeping parsers stop on it if and only if no neighbours share a nonzero index |
| `StreamLivelock.StubbornTrap` | l7probe/data_stream.c:193-196 | a parser that asks for more on every chunk is trapped by any two neighbours that do not join, wherever in the queue |
| `StreamLivelock.QueueSafeIffAllJoin` | l7probe/data_stream.c:176-214 | for every queue as it was filled: all parsers that move forward, and by a byte per frame, stop on it if and only if every chunk joins the one before it |
| `StreamLivelock.MovingBeforeAskingLoses` | l7probe/data_stream.c:162-163 | joining keeps the moved position: the unread bytes stay the same if and only if the parser did not move before asking for more |
| `Reassembly.ParseStepAccounts` | l7probe/data_stream.c:288-353 | bytes framed or skipped by one parse, followed by what is unread after it, are what was unread before; frames grow by exactly that frame |
| `Reassembly.RunAccounts` | l7probe/data_stream.c:356-421 | the same for any number of steps and any parser: no byte lost, doubled or reordered |
| `Reassembly.EndIsParseAll` | l7probe/data_stream.c:356-421 | under the parser contract that configuration is the one the recursive definition of the loop computes |
| `Reassembly.StepFaithful` | l7probe/data_stream.c:288-421 | for a parser that implements a prefix-stable decoder, on a queue in which a frame only runs on into a chunk that joins, a step takes off exactly the next frame of the bytes and skips nothing |
| `Reassembly.RunGreedy` | l7probe/data_stream.c:356-421 | frames taken plus greedy decoding of the unread rest is the greedy decoding of all bytes, at every point of the loop |
| `Reassembly.GreedyAppend` | l7probe/data_stream.c:146-174 | decoding does not depend on where the bytes were cut |
| `Reassembly.ReadableHalts` | l7probe/data_stream.c:356-421 | on such a queue the loop stops, whatever the parser does with broken chunks and whatever indices neighbours have where no frame is open |
| `StreamRuns.ExecSound` | l7probe/data_stream.c:356-445 | every add, parse and pop that returns keeps "bytes logged, then unread, are the bytes accepted"; the only one that does not return is a parse that meets a stuck queue |
| `StreamRuns.ParseReassembles` | l7probe/data_stream.c:356-421 | a parse of a clean stream returns and takes off exactly the next frames of the accepted bytes |
| `StreamRuns.RunReassembles` | l7probe/data_stream.c:146-214 | every interleaving of adds, parses and pops in which each chunk joins the last or no frame is open returns and keeps the frames a function of the accepted bytes |
| `StreamRuns.ReassemblyDependsOnBytesOnly` | l7probe/data_stream.c:288-445 | after any such run and one more parse with room, frames pushed and bytes left are the greedy decoding of the accepted bytes alone, with nothing skipped; every parse returns |
| `StreamObject.Stream.constructor` | l7probe/data_stream.c:248-252 | an empty stream |
| `StreamObject.Stream.AddRawData` | l7probe/data_stream.c:423-445 | appends an untouched chunk, or refuses when the queue is full and changes nothing |
| `StreamObject.Stream.PopRawData` | l7probe/data_stream.c:113-132 | the in-place shift removes exactly the front chunk; an empty queue gives nothing and stays empty |
| `StreamObject.Stream.PopFrames` | l7probe/data_stream.c:216-246 | the in-place shift removes exactly the matched frames |
| `StreamObject.Stream.PushFrame` | l7probe/data_stream.c:29-40 | appends a frame, or refuses when the buffer is full |
| `StreamObject.Stream.OverlayRawData` | l7probe/data_stream.c:176-214 | the arrays become what joining the two front chunks says |
| `StreamObject.Stream.ParseFront` | l7probe/data_stream.c:288-353 | one parse of the front, with every branch and the position restored on a stop |
| `StreamObject.Stream.FindFront` | l7probe/data_stream.c:367-378 | the boundary search moves or pops the front |
| `StreamObject.Stream.ParseFrames` | l7probe/data_stream.c:356-421 | whenever the loop halts at all, for any forward-moving parser and any queue, the method ends with the arrays of the configuration in which the specification run ends |
| `ConnData.SubmitConnData` | l7probe/bpf/kern_sock.h:203-230 | the messages are the consecutive pieces of the buffer with indices 0, 1, 2, …; it stops only when bytes, slots or the limit of ten run out |
| `ConnData.SubmitConnDataUser` | l7probe/session_conn.c:76-95 | the messages concatenate to the whole buffer, each within the maximum, all with index zero, each stamped with its offset |
| `ConnData.PiecesAreThePrefix` | l7probe/bpf/kern_sock.h:139-156 | the pieces concatenate to the first min(count, n * 8191) bytes, so the mask cuts nothing |
| `ConnData.AsIntIsCongruent` | l7probe/bpf/kern_sock.h:203-212 | the size is taken as the signed 32-bit number congruent to it, and nothing is sent of a negative one |
| `ConnData.PieceOffsets` | l7probe/bpf/kern_sock.h:212-230 | every message is stamped with the bytes it completes, the tenth with all that were to be sent |
| `ConnData.AddsAreClean` | l7probe/data_stream.c:423-445 | queueing the messages of a clean buffer behind what they join, or where no frame is open, is a clean run that accepts exactly its bytes |
| `ConnData.SplitThenReassemble` | l7probe/data_stream.c:176-214 | joining messages of any cut, parsed by any forward-moving parser of the protocol, give the frames of the uncut bytes, and the parse returns |
| `ConnData.KernelCutReassembles` | l7probe/bpf/kern_sock.h:203-230 | cutting in the kernel, queueing and parsing gives the frames and rest of the covered prefix as if it had not been cut |
| `ConnData.SessionCutReassembles` | l7probe/session_conn.c:76-95 | the same for the session path, whose indices are all zero |
| `Reservoir.SampleShape` | agent/src/collector/flow_aggr.rs:558-570 | after k flows the reservoir of size n holds min(n, k) distinct flow numbers below k |
| `Reservoir.KeptIsSample` | agent/src/collector/flow_aggr.rs:558-570 | what is kept are the flows with the sampled numbers |
| `Reservoir.DrawsAreAll` | agent/src/collector/flow_aggr.rs:565 | the counted set is exactly the set of all possible draw sequences |
| `Reservoir.CountNewest` | agent/src/collector/flow_aggr.rs:565-568 | the newest of k + 1 flows gets among the first m of a sample by m of every k + 1 draws |
| `Reservoir.CountOlder` | agent/src/collector/flow_aggr.rs:565-568 | an older flow stays there by k of every k + 1 draws |
| `Reservoir.Uniform` | agent/src/collector/flow_aggr.rs:558-570 | for every flow j of a period of k >= n flows, (draw sequences that keep j) * k = n * (all draw sequences) |
| `Reservoir.CutShares` | agent/src/collector/flow_aggr.rs:558-618 | of a sample of n cut to m, the share of draw sequences that keep flow j of k is n/k for j < m, zero for m <= j < n, and m/k from n on |
| `Reservoir.CutNeverForwards` | agent/src/collector/flow_aggr.rs:558-618 | whatever is drawn, flows m to n - 1 of the period are not forwarded |
| `Reservoir.CutFairIff` | agent/src/collector/flow_aggr.rs:558-618 | all flows of a period of more than n have one share if and only if m is n or zero |
| `Reservoir.CutPicks` | agent/src/collector/flow_aggr.rs:540-556 | what a flush after a cut forwards are the flows with the first m sampled numbers |
| `Reservoir.SampleAll` | agent/src/collector/flow_aggr.rs:560-562 | a period that fits keeps every flow in order |
| `ThrottlingQueue.ThrottlingQueue.constructor` | agent/src/collector/flow_aggr.rs:522-538 | empty caches and a throttle of four times the threshold |
| `ThrottlingQueue.ThrottlingQueue.UpdateThrottle` | agent/src/collector/flow_aggr.rs:594-618 | thresholds out of range change nothing; a new one truncates the cache |
| `ThrottlingQueue.ThrottlingQueue.FlushWithThrottling` | agent/src/collector/flow_aggr.rs:540-556 | only a new bucket forwards, it forwards the front of the sample under the new throttle and starts an empty period, and the cut is accounted |
| `ThrottlingQueue.FlushIffPeriodEnds` | agent/src/collector/flow_aggr.rs:540-556 | the sample is forwarded if and only if a multiple of four seconds has passed since the last time, at the latest after four seconds, and then all that the new throttle admits |
| `ThrottlingQueue.FlushWithoutIff` | agent/src/collector/flow_aggr.rs:572-588 | the other cache is forwarded if and only if that has passed or it holds 1024 flows |
| `ThrottlingQueue.ThresholdInForce` | agent/src/collector/flow_aggr.rs:594-618 | thresholds from 100 to 1000000 count, four flows each; any other leaves the throttle |
| `ThrottlingQueue.NothingCutIff` | agent/src/collector/flow_aggr.rs:594-618 | nothing of the sample is cut if and only if the period, or the throttle it was sampled under, is at most the new throttle |
| `ThrottlingQueue.LoweredThresholdLoses` | agent/src/collector/flow_aggr.rs:594-618 | going from threshold 200 to 100 in a period of 401 to 800 flows loses all above 400 |
| `ThrottlingQueue.ThrottlingQueue.SendWithThrottling` | agent/src/collector/flow_aggr.rs:558-570 | the cache stays the sample of the period's flows and draws; `false` exactly when the period was full |
| `ThrottlingQueue.ThrottlingQueue.FlushWithoutThrottling` | agent/src/collector/flow_aggr.rs:572-588 | forwards everything when full or in a new bucket, and otherwise nothing |
| `ThrottlingQueue.ThrottlingQueue.SendWithoutThrottling` | agent/src/collector/flow_aggr.rs:590-592 | caches every flow |
| `ThrottlingQueue.ThrottlingQueue.CacheIsSample` | agent/src/collector/flow_aggr.rs:540-570 | in every reachable state the cache has min(period count, throttle) distinct flows of the period |
| `ThrottlingQueue.Sender.constructor` | agent/src/collector/flow_aggr.rs:436-448 | nothing handed over yet |
| `ThrottlingQueue.Sender.SendFlow` | agent/src/collector/flow_aggr.rs:450-496 | both caches are flushed first, each by its own rule; a flow with a capture policy then goes behind the unthrottled cache; any other is offered to the sample with some draw below the count of the period, and counted as dropped exactly when the sample was full |
| `ThrottlingQueue.Sender.EveryFlowAccounted` | agent/src/collector/flow_aggr.rs:483-496 | over the whole life, flows handed over = sent + waiting + counted as dropped + cut off by a lower threshold |
| `Minutes.ResetDelaySeconds` | agent/src/collector/mod.rs:66-84 | the delay ends up between 60 and 119 seconds: one already there is kept, any other becomes the closest |
| `QuadrupleGenerator.BothWindowsValid` | agent/src/collector/quadruple_generator.rs:779-862 | two slots of a minute cover the delay for every minute configuration, and one slot per second of delay for a second one exactly from a delay of two |
| `QuadrupleGenerator.OneMoveIsEnough` | agent/src/collector/quadruple_generator.rs:353-401 | one pass of the window loop brings the time inside the window |
| `QuadrupleGenerator.MovedWindow` | agent/src/collector/quadruple_generator.rs:340-414 | after a move the time lies in [start, start + delay), its slot is inside the ring, and the start is a whole number of slots |
| `QuadrupleGenerator.MoveCloses` | agent/src/collector/quadruple_generator.rs:353-366 | a move for a time closes exactly the slots whose start plus the delay it has reached |
| `QuadrupleRuns.FrontCarries` | agent/src/collector/quadruple_generator.rs:140-179 | merging the flushed table into the next keeps exactly the living, recently seen connections |
| `QuadrupleRuns.FrontFinishes` | agent/src/collector/quadruple_generator.rs:416-457 | the load put into a record is max(1, carried + new) |
| `QuadrupleRuns.ShiftKeeps` | agent/src/collector/quadruple_generator.rs:353-401 | flushing one slot keeps ring, counters and batches equal to the reference |
| `QuadrupleRuns.JumpKeeps` | agent/src/collector/quadruple_generator.rs:366-385 | so does a jump past the whole ring |
| `QuadrupleRuns.InjectKeeps` | agent/src/collector/quadruple_generator.rs:545-604 | so does a flow, in any order inside the window |
| `QuadrupleRuns.EveryRunGroupsBy` | agent/src/collector/quadruple_generator.rs:340-604 | over every run: a key is in a stash or batch exactly when it had flows there, with exactly their sums, or the first flow's for data that is not metered, and its load; every accepted flow is in the ring or in a batch; slots are emitted in strictly increasing order, so at most once |
| `QuadrupleRuns.TallyIsSum` | agent/src/collector/quadruple_generator.rs:545-575 | those sums in plain numbers, read off the fields of the flows: what is living is the TCP and UDP flows opened and not closed, less those closed and not opened |
| `QuadrupleRuns.CarryIsFold` | agent/src/collector/quadruple_generator.rs:140-268 | without timeouts the carried connections are the fold max(0, carry + opened - closed), counted over the flows |
| `QuadrupleRuns.EveryLoadIsFold` | agent/src/collector/quadruple_generator.rs:353-457 | over every run without timeouts, each record's load is max(1, that fold before its slot + its new flows), counted over the flows |
| `QuadrupleTotals.EveryRunConserves` | agent/src/collector/types.rs:128-149 | over every run of metered reports, per key: emitted + in the ring = accepted |
| `QuadrupleTotals.EveryFieldConserves` | agent/src/metric/meter.rs:150-166 | the same field by field in plain numbers |
| `QuadrupleTotals.RunAccounts` | agent/src/collector/quadruple_generator.rs:346-351 | from any state and for any mix of reports and ticks: drops and accepted reports grow by the reports and the ticks that came late |
| `QuadrupleTotals.EveryRunAccounts` | agent/src/collector/quadruple_generator.rs:340-604 | over every run with any ticks: dropped + accepted = reports + ticks that were late on arrival |
| `QuadrupleObject.SubQuadGen.constructor` | agent/src/collector/quadruple_generator.rs:786-862 | an empty ring whose start is minute-aligned |
| `QuadrupleObject.SubQuadGen.Merge` | agent/src/collector/quadruple_generator.rs:140-179 | the entry-by-entry merge is the merged table |
| `QuadrupleObject.SubQuadGen.SetConnection` | agent/src/collector/quadruple_generator.rs:416-457 | every record of the slot gets its load and the entries it read are refreshed |
| `QuadrupleObject.SubQuadGen.FlushFlow` | agent/src/collector/quadruple_generator.rs:459-510 | the slot is replaced by an empty one and its records leave as one batch of that slot |
| `QuadrupleObject.SubQuadGen.MoveWindow` | agent/src/collector/quadruple_generator.rs:340-414 | flushing in place and rotating is the slot-by-slot shift; the loop runs at most once; false exactly before the window |
| `QuadrupleObject.SubQuadGen.InjectFlow` | agent/src/collector/quadruple_generator.rs:545-604 | the slot of the flow's time, and its connection table, take the flow |
| `QuadrupleObject.SubQuadGen.Accept` | agent/src/collector/quadruple_generator.rs:890-970 | one report or tick does what the specification step does |
| `QuadrupleKey.WriteSections` | agent/src/collector/consts.rs:31-43 | a write touches only the sections it covers: the offsets are disjoint |
| `QuadrupleKey.GetKeySections` | agent/src/collector/quadruple_generator.rs:1114-1191 | every field can be read back from the key |
| `QuadrupleKey.KeysEqualIff` | agent/src/collector/quadruple_generator.rs:1161-1191 | for flows of any source, keys are equal if and only if family, sections and path bytes are |
| `QuadrupleKey.FieldsEqualIff` | agent/src/collector/quadruple_generator.rs:1114-1191 | two flows of any source share a key if and only if the low 16 bits of both network ids, both process ids, tap port fields, tap type byte, tap side, protocol, the number in the port section and both addresses agree; that number is the port of packets and known services, the protocol of other traces shifted by a byte, or zero |
| `QuadrupleKey.PacketKeysEqualIff` | agent/src/collector/quadruple_generator.rs:1114-1191 | for captured packets that number is the destination port |
| `QuadrupleKey.TraceProtocolReadsAsPort` | agent/src/collector/quadruple_generator.rs:1143-1160 | a trace of an unknown service shares its key with one of a known service on the port its protocol spells |
| `QuadrupleKey.WrongFamilyLosesAddresses` | agent/src/collector/quadruple_generator.rs:1165-1175 | addresses that are not of the claimed family do not enter the key |
| `StashKey.BuiltCodes` | agent/src/collector/collector.rs:957-971 | the codes built for single-ended and edge tags are exactly those with a layout |
| `StashKey.KeyIffBuilt` | agent/src/collector/collector.rs:201-312 | a key exists exactly for those codes and the policy code; the panic is never reached |
| `StashKey.KeysCollide` | agent/src/collector/collector.rs:156-327 | for all tags with a key, any tap type and tap port: they share it if and only if they are of one family and agree on the path, the packed protocol and the bits left by tap type over code, or by tap port, tap type and protocol over the reserved bits |
| `StashKey.KeyTellsPolicy` | agent/src/collector/collector.rs:203-308 | a policy key is never the key of another tag |
| `StashKey.KeysCollideIff` | agent/src/collector/collector.rs:156-327 | two tags whose fields do not run into each other share a packed key if and only if they have one code and agree on every field its layout holds |
| `StashKey.BuiltKeysCollide` | agent/crates/public/src/enums.rs:193-203 | for tags with a tap type of 0 to 256 or 0xffff and a tap port with free reserved bits: exactly which tap types, codes and protocols share a key, value by value |
| `StashKey.SingleKeyIsOwnIff` | agent/src/collector/collector.rs:204-243 | among those, a single-ended key is one tag's alone if and only if the tap type is 1 to 255, or 0 under the plain MAC or the protocol code, or 256 under the protocol code |
| `StashKey.EdgeAppLosesProtocol` | agent/src/collector/collector.rs:296-308 | any two application protocols share the edge key without MAC |
| `StashKey.UnknownTapTypeHidesCode` | agent/crates/public/src/enums.rs:193-203 | with tap type 0xffff two single-ended codes share a key if and only if they pack the same protocol |
| `StashKey.UnknownTapTypeHidesProtocol` | agent/src/collector/collector.rs:257-308 | with tap type 0xffff all application protocols share one edge key, in every layout |
| `Collector.TickNeverUnderflows` | agent/src/collector/collector.rs:396-401 | the subtraction on a tick is defined for every configured delay, and without the clamp exactly for second collectors and delays from 60 |
| `Collector.FloorLaws` | agent/src/collector/collector.rs:403 | rounding down keeps alignment and never goes behind an aligned start |
| `Collector.ContributionsTagged` | agent/src/collector/collector.rs:440-496 | every meter a flow contributes carries the meter type of its code |
| `Collector.SameKeyMerges` | agent/src/collector/collector.rs:810-822 | two meters that fall on one key are of one type, so merging them never panics |
| `CollectorRuns.AddDoc` | agent/src/collector/collector.rs:810-822 | a meter lands in the document of its key and changes no other |
| `CollectorRuns.MoveKeeps` | agent/src/collector/collector.rs:403-422 | moving on sends the stash stamped with the old slot and keeps the group-by |
| `CollectorRuns.CollectKeeps` | agent/src/collector/collector.rs:380-496 | one flow or tick never panics, never moves the start back, and keeps the group-by |
| `CollectorRuns.TickClosesByAge` | agent/src/collector/collector.rs:393-401 | a tick makes exactly those flows late that are older than the slot of its time less the delay, or less the delay minus a minute for a minute collector |
| `CollectorRuns.EveryRunGroupsBy` | agent/src/collector/collector.rs:380-496 | over every run and any delay: a key has a document exactly when meters for it arrived in that slot, with exactly their sums; every accepted meter is stashed or in one batch stamped with the floor of its time |
| `CollectorFlows.ContributionsSum` | agent/src/collector/collector.rs:440-496 | what a flow adds to a key: its endpoint entries of that key unless its hosts are inactive, and for a minute collector and captured packets its sent traffic per client policy and its received traffic per server policy of that key |
| `CollectorFlows.EveryRunCountsFlows` | agent/src/collector/collector.rs:380-496 | over every run: a key has a document in a slot exactly when an accepted flow of the slot adds to it, with exactly the plain sums over those flows; every accepted flow is of the current slot or of one sent, and those of inactive hosts are counted |
| `CollectorRuns.StartTime` | agent/src/collector/collector.rs:358-362 | the start is a whole minute, at least two and less than three minutes back |
| `CollectorTicks.RunMoves` | agent/src/collector/collector.rs:386-422 | over every run the window start is the furthest slot reached, and the late counter the number of inputs that arrived behind it, both functions of the times alone |
| `CollectorTicks.LateIffTickPassed` | agent/src/collector/collector.rs:386-422 | among reports in slot order with any ticks between them, one is late if and only if an earlier tick reached past its time |
| `CollectorTicks.RecordLateIffTickPassed` | agent/src/collector/collector.rs:1235-1246 | whatever the generator was fed, one of its records is late in the collector if and only if an earlier tick moved the window past it |
| `CollectorObject.StashTable.constructor` | agent/src/collector/collector.rs:348-378 | the start is two whole minutes back and the delay is clamped by the collector's kind |
| `CollectorObject.StashTable.FlushStats` | agent/src/collector/collector.rs:824-847 | draining in batches sends every document once, stamped with the current slot |
| `CollectorObject.StashTable.AddMeter` | agent/src/collector/collector.rs:810-822 | merges into the document of the key or starts it, and fails exactly where the agent panics |
| `CollectorObject.StashTable.CollectL4` | agent/src/collector/collector.rs:380-496 | one call does what the specification step does |
| `Pipeline.InOrderNeverLate` | agent/src/collector/collector.rs:386-422 | reports that come in slot order are never counted as late |
| `Pipeline.RunNotBefore` | agent/src/collector/quadruple_generator.rs:353-401 | from any state no slot older than the oldest held is ever emitted |
| `Pipeline.GeneratorInOrder` | agent/src/collector/quadruple_generator.rs:353-401 | whatever the generator was fed, its records taken batch by batch come in slot order |
| `Pipeline.GeneratorFeedsCollector` | agent/src/collector/collector.rs:386-391 | whatever the generator was fed, a collector that takes its records batch by batch and starts no later never drops one as late |
| `Pipeline.StartedTogether` | agent/src/collector/collector.rs:358-362 | with both stages started by their constructors, the collector's clock not in a later minute, nothing panics and no record is late |
| `TickMargin.ReachPasses` | agent/src/collector/collector.rs:393-403 | for every delay and clock: a tick moves the window past a time if and only if it comes from the start of the time's slot plus the delay on, for a second collector one second later; before the delay the clock itself must have left the slot |
| `TickMargin.RunCloses` | agent/src/collector/quadruple_generator.rs:353-401 | over every run the generator has closed a slot if and only if some input came at or after its start plus the delay |
| `TickMargin.RecordLateIff` | agent/src/collector/collector.rs:1235-1246 | whatever the generator was fed and whatever ticks come between, a record is late if and only if an earlier tick closes its slot by the clock |
| `TickMargin.InStepNeverLate` | agent/src/collector/collector.rs:386-422 | a record is in time if every earlier tick is ahead of a time the generator had handled before the record left it by no more than the collector's delay exceeds the generator's |
| `TickMargin.TickLosesRecord` | agent/src/collector/collector.rs:386-401 | in every configuration one flow and a tick at the first closing time before its record arrives lose the record; a tick a second earlier does not |
| `TickMargin.ConfiguredMargin` | agent/src/trident.rs:1934-1962 | the margin is five for a second collector, and min(5, 59 - d) but not below zero for a minute collector |
| `CollectorClock.CheckedRunIff` | agent/src/collector/collector.rs:404-423 | with overflow checks a run goes through if and only if each input is late or its slot has begun by the clock, and then does what it does without them |
| `CollectorClock.NothingAheadNeverPanics` | agent/src/collector/collector.rs:423 | so it goes through when no input is ahead of the clock |
| `CollectorClock.AheadPanics` | agent/src/collector/collector.rs:423 | any flow a slot ahead of the clock makes a fresh collector panic with the checks, and not without |
| `FlowAggr.MinuteStartBounds` | agent/src/common/flow.rs:1024-1028 | the minute start has the second of the flow's start and lies within the minute before its statistics time |
| `FlowAggr.ReachingWindow` | agent/src/collector/flow_aggr.rs:228-233 | after the flush the report's slot is inside the ring, and is the last one exactly when a flush was needed |
| `FlowAggr.MergeKeepsMinute` | agent/src/collector/flow_aggr.rs:237-244 | merging keeps id and minute start |
| `FlowAggrRuns.RotateKeeps` | agent/src/collector/flow_aggr.rs:288-309 | sending the front slot keeps every slot exact |
| `FlowAggrRuns.FlushKeeps` | agent/src/collector/flow_aggr.rs:311-323 | so does flushing any number of slots, with the jump past the ring |
| `FlowAggrRuns.InsertKeeps` | agent/src/collector/flow_aggr.rs:235-285 | so does a report, merged, stashed or sent |
| `FlowAggrRuns.EveryRunGroups` | agent/src/collector/flow_aggr.rs:216-328 | over every run, per flow and minute start: the records sent are exactly the closed groups of its reports in order, then the open one once its slot is sent; what is stashed is exactly the open group, a forced report of that minute start |
| `FlowAggrRuns.EveryRecordSumsUp` | agent/src/common/flow.rs:1048-1115 | over every run, read off the reports: one record per report that closes the flow, sent with it, made of exactly the reports since the one before, with their plain sums in each direction, the close type and direction of the last and the times of the first; the reports after the last closing one are stashed, and sent, as one |
| `FlowAggrRuns.MergeOriented` | agent/src/common/flow.rs:1107-1115 | turning before merging keeps the two directions apart |
| `FlowAggrRuns.EveryRunConserves` | agent/src/collector/flow_aggr.rs:216-328 | per flow and minute start, directed traffic sent plus stashed is the traffic accepted |
| `FlowAggrRuns.RunAccounts` | agent/src/collector/flow_aggr.rs:216-225 | from any state, with any time-outs: drops and accepted reports grow by the number of reports |
| `FlowAggrRuns.EveryRunAccounts` | agent/src/collector/flow_aggr.rs:219-225 | over every run with any time-outs: dropped + accepted = reports |
| `FlowAggrObject.FlowAggregator.constructor` | agent/src/collector/flow_aggr.rs:181-214 | sixty slots plus one per second of delay, all empty |
| `FlowAggrObject.FlowAggregator.FlushFrontSlotAndRotate` | agent/src/collector/flow_aggr.rs:288-309 | hands every flow of the front slot over once and rotates |
| `FlowAggrObject.FlowAggregator.FlushSlots` | agent/src/collector/flow_aggr.rs:311-323 | at most every slot once, then the jump |
| `FlowAggrObject.FlowAggregator.InsertFlow` | agent/src/collector/flow_aggr.rs:235-285 | the branches on a stashed or new flow, forced or closing |
| `FlowAggrObject.FlowAggregator.MinuteMergeFlow` | agent/src/collector/flow_aggr.rs:216-286 | one report does what the specification step does |
| `FlowAggrObject.FlowAggregator.OnTimeout` | agent/src/collector/flow_aggr.rs:365-372 | the front slot goes exactly when the last flush is more than a window ago |
| `L7Generator.CapIsIdle` | agent/src/collector/l7_quadruple_generator.rs:266-267 | once the window has moved, the cap on the slot index never changes it |
| `L7Generator.SpanNatural` | agent/src/collector/l7_quadruple_generator.rs:268-271 | the span between request and report in slots is never negative |
| `L7Generator.DrainKeepsSpansIff` | agent/src/collector/l7_quadruple_generator.rs:304-327 | the records drained carry the spans their meters were gathered under if and only if every meter that leaves was gathered under the span of the draining report |
| `L7Generator.FirstSpanIsLost` | agent/src/collector/l7_quadruple_generator.rs:252-340 | from any sound state, a report without a flow followed by one of the same flow and slot with another span and the flow: both leave, the first with the span of the second |
| `L7Runs.SpanLostFromStart` | agent/src/collector/l7_quadruple_generator.rs:252-340 | in every configuration two given reports to an empty generator do so: the first has span zero and its record leaves with span one |
| `L7Runs.GatherAccounts` | agent/src/collector/l7_quadruple_generator.rs:275-302 | adding, replacing or ignoring a meter accounts for both old and new counts |
| `L7Runs.DrainAccounts` | agent/src/collector/l7_quadruple_generator.rs:310-340 | draining moves every count into records or into stats that counted no request |
| `L7Runs.MoveAccounts` | agent/src/collector/l7_quadruple_generator.rs:148-212 | moving the window sends what has a flow and forgets the rest, and nothing else |
| `L7Runs.PushAllAccounts` | agent/src/collector/l7_quadruple_generator.rs:235-250 | records of closed flows, sent early in batches of 1024 or kept, are counted once |
| `L7Runs.EveryRunAccounts` | agent/src/collector/l7_quadruple_generator.rs:148-383 | over every run, per flow and counter: delivered + stashed + lost for a stated reason = injected, so delivered + stashed is at most injected |
| `L7Waiting.EveryWaitIsSum` | agent/src/collector/l7_quadruple_generator.rs:252-302 | over every run, per slot and flow: one waiting stat for every endpoint, type and span among the reports since the last drain, with the first known protocol among them and the plain sums over the reports that have it |
| `L7Waiting.ReportLosesIff` | agent/src/collector/l7_quadruple_generator.rs:281-292 | in every reachable state a report costs one of its flow if and only if it is in time and meets others of its endpoint, type and span that have settled on another protocol |
| `L7Waiting.OneProtocolLosesNone` | agent/src/collector/l7_quadruple_generator.rs:281-292 | over any run, a flow whose reports all carry one protocol loses none of them to a protocol |
| `L7Waiting.FlowTakesAll` | agent/src/collector/l7_quadruple_generator.rs:304-383 | in every reachable state a flow that arrives in time takes along one record for each of those sums that counted something, its own report included, to the sender if it is closed and into the slot if not |
| `L7Waiting.PushInOrder` | agent/src/collector/l7_quadruple_generator.rs:235-250 | records of closed flows are sent in order, 1024 at a time |
| `L7Runs.RunCloses` | agent/src/collector/l7_quadruple_generator.rs:148-191 | over every run a slot is closed if and only if some report or tick came at or after its start plus the delay |
| `L7Runs.EveryDropIsLate` | agent/src/collector/l7_quadruple_generator.rs:150-156 | over every run the drop counter is the number of reports and ticks that came behind the window |
| `L7Runs.SendsAllClosed` | agent/src/collector/l7_quadruple_generator.rs:618-672 | the send after a batch leaves no record of a closed flow behind |
| `L7Origins.EveryReportOnce` | agent/src/collector/l7_quadruple_generator.rs:148-383 | over every run, report n appears once for its own flow among sent, closed, stashed and lost meters, and never for another flow |
| `L7Origins.RecordOwnsReport` | agent/src/collector/l7_quadruple_generator.rs:252-383 | a report that is part of a record is of that flow, part of it once, and of nothing waiting or lost |
| `L7Origins.AtMostOneRecord` | agent/src/collector/l7_quadruple_generator.rs:235-383 | over every run no report is part of two records, whether sent, closed or still in the ring |
| `L7Origins.EveryRecordIsSum` | agent/src/collector/l7_quadruple_generator.rs:275-340 | over every run the counts of every record are the sums over the reports it is made of |
| `L7Object.GatherInto` | agent/src/collector/l7_quadruple_generator.rs:275-302 | the search and update is the specification's |
| `L7Object.DrainAll` | agent/src/collector/l7_quadruple_generator.rs:310-340 | the drain loop is the specification's |
| `L7Object.L7SubQuadGen.constructor` | agent/src/collector/l7_quadruple_generator.rs:571-592 | an empty ring whose start is minute-aligned |
| `L7Object.L7SubQuadGen.PushAll` | agent/src/collector/l7_quadruple_generator.rs:235-250 | closing records one by one, with a send whenever 1024 have gathered, is the specification's |
| `L7Object.L7SubQuadGen.FlushStats` | agent/src/collector/l7_quadruple_generator.rs:193-212 | swapping in an empty slot sends exactly the records of the old one |
| `L7Object.L7SubQuadGen.MoveWindow` | agent/src/collector/l7_quadruple_generator.rs:148-191 | flushing in place and rotating is the slot-by-slot shift; false exactly before the window |
| `L7Object.L7SubQuadGen.InjectAppMeter` | agent/src/collector/l7_quadruple_generator.rs:252-383 | one report does what the specification says, with every branch |
| `L7Object.L7SubQuadGen.Accept` | agent/src/collector/l7_quadruple_generator.rs:618-672 | one report, tick or send does what the specification step does |
| `U16Set.MergedElems` | agent/src/collector/types.rs:181-223 | the merge has the elements of both lists |
| `U16Set.MergedSorted` | agent/src/collector/types.rs:181-223 | the merge of strictly sorted lists is strictly sorted |
| `U16Set.AddedIsSet` | agent/src/collector/types.rs:175-179 | inserting at the searched place keeps the list strictly sorted and adds exactly that number |
| `U16Set.SortedUnique` | agent/src/collector/types.rs:168-223 | a strictly sorted list is determined by its elements |
| `U16Set.MergeLoop` | agent/src/collector/types.rs:194-210 | the three-cursor loop on one array: the write cursor never passes the read cursor, and output plus merge of the unread parts is the whole merge |
| `U16Set.Finish` | agent/src/collector/types.rs:212-221 | what is left of one list is moved behind the output |
| `U16Set.Numbers.constructor` | agent/src/collector/types.rs:171-173 | the empty set |
| `U16Set.Numbers.BinarySearch` | agent/src/collector/types.rs:176 | finds the number, or the only place it fits |
| `U16Set.Numbers.Add` | agent/src/collector/types.rs:175-179 | the vector takes one step of the specification: the number is in it, at its place, once |
| `U16Set.Numbers.Merge` | agent/src/collector/types.rs:181-223 | the vector becomes the merge of both, and so takes the merge step of any run that reaches the other vector |
| `U16Set.Numbers.Clear` | agent/src/collector/types.rs:229-231 | the empty set again |
| `U16Set.EveryRunIsSet` | agent/src/collector/types.rs:175-231 | after any run of add, merge with the vector of any other run, and clear: the vector is strictly sorted and has exactly the elements added and not cleared |
| `U16Set.SameSetSameVector` | agent/src/collector/types.rs:168-231 | two runs leave equal vectors if and only if they reach equal sets |
| `AgentState.NextKeeps` | agent/src/trident.rs:202-293 | every step of every caller and of the loop keeps the mutex exclusive, the notification of `terminate` effective and the loop from unwrapping nothing |
| `AgentRuns.NeverLeftAsleep` | agent/src/trident.rs:272-280 | under every schedule, once a `terminate` has returned the loop is neither asleep nor about to sleep; it never unwraps a missing configuration |
| `AgentRuns.ToldEnds` | agent/src/trident.rs:889-998 | once told, the loop takes at most six more steps and handles at most one more wake-up |
| `AgentRuns.StopsAfterTerminate` | agent/src/trident.rs:889-998 | from the start, under every schedule: after a `terminate` has returned the loop takes at most six more steps, handles at most one more wake-up and is never asleep |
| `AgentRuns.NoDeadlock` | agent/src/trident.rs:193-200 | the loop and the calls never block each other for good |
| `AgentRuns.StopEnds` | agent/src/trident.rs:1165-1170 | if the flag is set and nobody can move, the loop has stopped and every call has returned |
| `AgentRuns.LatestCallDecides` | agent/src/trident.rs:208-292 | under every schedule the agent runs as the latest calls that wrote the state say: enabled by `enable`, `disable` and the configuration, melted down by `melt_down` and `recover` |
| `AgentRuns.ChangeIsHeard` | agent/src/trident.rs:208-270 | when a call that changed whether the agent runs has returned, a loop that slept has handled a wake-up since or is about to; a call that changes nothing wakes nobody |
| `AgentRuns.NoLockAfterTermination` | agent/src/trident.rs:194-200 | once the agent is terminated, calls other than `terminate` return without ever asking for the lock |
| `AgentRuns.LateCallStillWakes` | agent/src/trident.rs:208-213 | such a call still wakes a sleeping loop |
| `AgentRuns.AsleepOnConfigIff` | agent/src/trident.rs:282-292 | under every schedule before and after the latest store of a configuration: when the loop is asleep and the lock free, that configuration is pending if and only if the loop was on its way to wait at the store and has handled no wake-up since |
| `AgentRuns.UpdateCanBeMissed` | agent/src/trident.rs:889-915 | from every world in which the loop is on its way to wait and the lock free, an update can return in full and the loop still fall asleep on it |

## Left out

- Timestamps of chunks and frames, empty slots in the queue arrays, allocation failure and freeing in the C code.
- The branch of `submit_conn_data` over scattered buffers, and the byte counters and statistics messages beside it.
- The protocol parsers themselves; which contract each result needs is under Assumptions.
- `flush_all_flow` and the loads it sets, which follow a different rule from the window's.
- The eviction of the least-recently-used maps, the set of possible hosts and the activity flags derived from it.
- The latency, performance and anomaly parts of meters, merged by maximum or sum beside the traffic, and the policy ids merged beside the meter.
- How an endpoint's tag is filled from a flow in `fill_l4_stats`; the tags are inputs.
- `collect_l7` in the collector, whose window is the same.
- Merging of health-check flows in the aggregator, and the alignment of start and end times when a flow is sent.
- Counters, logging, thread start and stop, shrinking of tables, and failures of queue sends.
- Everything the main loop does with a configuration once it has taken it.
- Wrap-around of 32-bit and 64-bit counters.
- StashKey.KeysCollideIff: for tags whose fields do not run into each other; `KeysCollide` and `BuiltKeysCollide` are the statements for all tags and for all the agent builds.
- TickMargin.InStepNeverLate: for clocks past the delay; before that a tick is not corrected and `RecordLateIff` is the whole statement.
- CollectorRuns.CollectKeeps: without the delay statistic at agent/src/collector/collector.rs:423; `CollectorClock.CheckedRunIff` adds it and says exactly when its subtraction panics.
- CollectorRuns.EveryRunGroupsBy: without that statistic, in the same way; the clock is at least two minutes past its origin, as the start time computed from it needs.
- Pipeline.StartedTogether: without that statistic, in the same way.
- QuadrupleRuns.EveryLoadIsFold: stated for loads set when the window moves, without timeouts; with them the reference is `CarryBefore`.
- FlowAggrRuns.EveryRunGroups: for reports whose statistics time is at least the second of their start; below that the source's unsigned subtraction has no value.
- FlowAggrRuns.EveryRunAccounts: for the same reports.
- L7Runs.EveryRunAccounts: for reports whose span is not larger than their time, for the same reason.
- L7Origins.EveryReportOnce: for the same reports, as are the other statements about `origin`.
- L7Waiting.EveryWaitIsSum: for the same reports, as are the other statements about what waits.
