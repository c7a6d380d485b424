# Causpan, verified

Causpan rebuilds, from an ordered trace, which logical request was executing at every observed
syscall. This project models the offline attributor, the two runtime bridges that feed it, the
request registry, and the smaller validators and projections around them, and proves what they
promise.

- **Attributor.** `Attribution` gives one step per native-event marker and one per syscall;
  `Attributor` is the class that updates its fields in place and equals those steps; `Replay` runs
  whole traces. On top: `TableViews` and `KernelTables` (the flat descriptor maps simulate one table
  object per task group), `IpcProtocol` (the job protocol), `SocketReads` (ownership and the
  retroactive pass), `OwnershipHistory` (who owns a connection, from the lines alone),
  `TraceMeaning` (what each line adds, record by record), `OwnershipEdges` and `Inheritance`
  (connections and forked processes), and `Provenance` (what walking the graph backward means).
- **Bridges.** `NodeBridge` and `TokioBridge` step the instrumented runtimes one visible effect at a
  time, so that every interleaving of threads is a run; `NodeRuntime` and `TokioRuntime` are the
  imperative forms; `NodeReplay` and `TokioReplay` prove that the attributor, fed only their
  markers, ends with the same contexts; `NodeHistory` and `TokioHistory` read a run from its events
  alone, so that what a thread, a submission or a span works for does not rest on the bridges' own
  state; `NodeSession` and `TokioSession` run the mutable objects of both sides together with that
  as their invariant; `BridgedProvenance` carries the graph results over to every run of either
  bridge, and `BridgedTraces` the attributor's whole run, from the request map to the published
  output.
- **Registry.** `Registry` hands out contexts and writes the request map; `RequestMap` loads it,
  computes owners and seeds the graph, and `MapMeaning` says which maps those are.
- **Rings.** `RingMemory` decodes snapshots byte by byte, `RingProducer` says what is queued in
  memory, `SharedRing` is the producer and reaper working on byte arrays and `SharedRuns` their loop
  over many batches, `JoinObservations` and `SharedBatches` join and order what was observed.
- **Around them.** `Datagrams`, `DatagramPairing`, `TransferMeaning` and `TransferOrder` (pairing
  Unix datagrams), `FileResource` (which open a descriptor refers to), `EvidenceChain` (the query
  closures), `Windows` and `WindowHistory` (debugger batches), `WatcherQueue` (insertion and removal
  episodes), `BatchWriter` (the coalescing writer), `Arrivals` (the peak sweep).

Results that go against the code as written, all in `KernelTables`. Attributor and kernel agree if
every living task is shown exactly its identified descriptors, with their close-on-exec flags, and
living tasks are taken to share a table exactly if they do. They part at exactly these events, each
recognisable from the states before it and from what the kernel does:

- a `connect` on a number the attributor does not hold, if the number is not open, is not a socket,
  is open under another descriptor of a living task too, or has a flag unlike the one remembered;
- a call whose effect the trace does not tell (it failed, its result is unknown, its range was not
  read, or it is of a kind the attributor ignores), or a change by no call at all, that closes,
  replaces, brings in or re-flags an identified descriptor, or that leaves a shared table;
- a task that appears unannounced under an identity for which the attributor shows something else.

`KernelTables.PhantomConnection` is the refused `connect` that leaves a connection the kernel never
opened, `KernelTables.UnreadRange` the successful `close_range` whose range the regular expression
does not match, and `KernelTables.LostFlagDiverges` a run after which the attributor shows a socket
the kernel has closed. `KernelTables.ConnectAfterExec` is the common case that goes well: a program
connecting a socket it inherited.

Hypotheses used where the code trusts its environment: work objects are not resubmitted while
pending and libuv runs work before its completion; span identities are not reused; a forked child
is a new process; every syscall has its own trace position; fewer than 2^64 operations are
numbered. They appear as `Enabled`, `Allowed`, `Faithful`, `NodeFresh`, `TokioFresh` and the
run-length bound. `KernelTables.Possible` is what a kernel guarantees about results and identities.
The descriptor results take the order of the trace, which is the order in which calls began
(experiments/mcp/analyze.py:119), for the order in which they took effect: a blocking `accept`
overtaken by another task's call on the same table is not a run of the model.

## Model

| member | source | states |
|---|---|---|
| NodeBridge.StepInv | experiments/mcp/native/context.cc:94-160 | every step of context, submit, work, done and cancel keeps the bridge's bookkeeping: records hold exactly the submissions whose record has not been taken, work frames are the running submissions of their thread, and a named operation has been announced under the request it is named with |
| NodeReplay.EffectSim | experiments/mcp/attribute.py:253-310 | one marker of the Node bridge takes the attributor from a state that mirrors the bridge to a state that mirrors it again, with no error |
| NodeReplay.RunSim | experiments/mcp/native/context.cc:94-160 | the simulation holds after every interleaving of bridge steps and syscalls over any threads, with work addresses reused as soon as completion starts |
| NodeReplay.ContextsReplayed | experiments/mcp/native/context.cc:226-234 | after any interleaving the attributor's request and operation of every thread are that thread's thread-locals, its stack of running work is the thread's, and no error was added |
| NodeReplay.RowsNameRunningRequest | experiments/mcp/attribute.py:504-535 | a syscall row names the request and operation its thread held at that moment and stays in the output of every longer run |
| NodeReplay.ValidIffAllComplete | experiments/mcp/attribute.py:602-613 | final validation finds nothing if and only if every announced submission has completed |
| NodeHistory.LocalsAreRight | experiments/mcp/native/context.cc:94-160 | over every run, each thread holds the request and operation its own events give it: what was last set, what the submission it entered was made under, or what it held before the wrapper it left |
| NodeHistory.MarkersAreRight | experiments/mcp/native/context.cc:94-160 | every marker written is exactly the one the events so far owe |
| NodeHistory.AttributorIsRight | experiments/mcp/attribute.py:253-310 | the attributor, fed only markers, holds for every thread what the events give it |
| NodeHistory.RowsAreRight | experiments/mcp/attribute.py:504-535 | every row of the finished trace names what the events gave its thread at that moment |
| NodeHistory.WorkRunsUnderSubmitter | experiments/mcp/native/context.cc:133-143 | work started on any thread runs under the request its submitter held when it submitted it, and under that submission's number |
| NodeHistory.CompletionRunsUnderSubmitter | experiments/mcp/native/context.cc:123-128 | so does its completion, even if the work address has been submitted again for another request before |
| NodeHistory.LeavingRestores | experiments/mcp/native/context.cc:119-132 | when a wrapper returns, the thread holds again the request and operation it held before it was entered |
| NodeHistory.RowsNameSubmitter | experiments/mcp/attribute.py:504-535 | every syscall made inside the work or its completion is attributed to the request of the submitter |
| NodeHistory.Progress | experiments/mcp/native/context.cc:94-160 | no submission gets stuck: whatever stage it has reached, the next is open to it |
| NodeRuntime.Runtime.Lookup | experiments/mcp/native/context.cc:99-114 | a known work object yields its record, erased if asked; an unknown one is reported, marked fatal and replaced by an empty record |
| NodeRuntime.Runtime.Context | experiments/mcp/native/context.cc:226-234 | changing the JavaScript context, to any request, writes a marker exactly when request or operation changes, and returns the previous request |
| NodeRuntime.Runtime.Submit | experiments/mcp/native/context.cc:133-143 | a submission is numbered and recorded under the current request; after a fatal error the process exits first, and a work object already recorded is reported and exits |
| NodeRuntime.Runtime.AnnounceWork | experiments/mcp/native/context.cc:144-145 | the submit marker carries the captured request, the operation number and the work address |
| NodeRuntime.Runtime.BeginWork | experiments/mcp/native/context.cc:115-119 | entering work switches to the recorded context and saves the previous one; unknown work is reported and entered under no request |
| NodeRuntime.Runtime.FinishWork | experiments/mcp/native/context.cc:119-122 | leaving work restores the saved context |
| NodeRuntime.Runtime.EraseRecord | experiments/mcp/native/context.cc:123-125 | the record is gone before the completion is entered, so the address may be reused |
| NodeRuntime.Runtime.BeginDone | experiments/mcp/native/context.cc:126-128 | entering the completion switches to the recorded context and saves the previous one |
| NodeRuntime.Runtime.Complete | experiments/mcp/native/context.cc:129 | the completion marker carries the submission's own request, work address and status |
| NodeRuntime.Runtime.FinishDone | experiments/mcp/native/context.cc:131-132 | leaving a completion restores the context saved when it began |
| NodeSession.Session.Deliver | experiments/mcp/attribute.py:673-681 | processing what a bridge step wrote keeps the mutable attributor mirroring the mutable bridge, whichever step it was |
| NodeSession.Session.Syscall | experiments/mcp/attribute.py:681 | a syscall at any moment, by any process, leaves the mirroring intact |
| NodeSession.Session.Mirrored | experiments/mcp/native/context.cc:57-58 | at any moment the attributor's fields hold every thread's own request, operation and running work, and no error |
| NodeSession.Session.Working | experiments/mcp/native/context.cc:57-58 | at any moment the mutable bridge holds for every thread what the events so far give it |
| TokioBridge.StepInv | crates/causpan-runtime/src/lib.rs:109-177 | every step keeps the layer's bookkeeping: intervals on a thread's stack are running, distinct and held by that thread, and every unfinished interval is where its thread says |
| TokioReplay.EffectSim | experiments/mcp/attribute.py:253-310 | one marker of the Tokio layer keeps the attributor in step with the layer |
| TokioReplay.RunSim | crates/causpan-runtime/src/lib.rs:109-177 | the simulation holds after every interleaving of span enters and exits over any threads |
| TokioReplay.ContextsReplayed | crates/causpan-runtime/src/lib.rs:63-71 | the attributor holds the top of every thread's span stack, active work is the stack's operations in order, and no error was added |
| TokioReplay.NextRowNamesTop | experiments/mcp/attribute.py:504-535 | a syscall is attributed to the innermost span of its thread at that moment |
| BridgedTraces.RowsNameRunningSpan | experiments/mcp/attribute.py:504-535 | that row stays in the output of every longer run |
| TokioReplay.OwnersFixed | crates/causpan-runtime/src/lib.rs:109-160 | no step changes the owner a span was created with |
| TokioReplay.ValidIffAllComplete | experiments/mcp/attribute.py:602-613 | final validation finds nothing if and only if every announced interval has been closed |
| TokioHistory.CurrentIsRight | crates/causpan-runtime/src/lib.rs:129-174 | over every run, each thread's innermost frame is the one its own enters and exits put there, with the request the span belongs to |
| TokioHistory.OwnersAreRight | crates/causpan-runtime/src/lib.rs:109-128 | every span's owner is the request its creation gives it |
| TokioHistory.MarkersAreRight | crates/causpan-runtime/src/lib.rs:129-177 | every marker written is exactly the one the events so far owe |
| TokioHistory.AttributorIsRight | experiments/mcp/attribute.py:253-310 | the attributor, fed only markers, holds for every thread what the events give it |
| TokioHistory.RowsAreRight | experiments/mcp/attribute.py:504-535 | every row of the finished trace names what the events gave its thread at that moment |
| TokioHistory.SpanWorksFor | crates/causpan-runtime/src/lib.rs:109-146 | a thread that enters a span works for the span's own field; without one, for the request its known explicit parent belongs to; without either, for what the creator worked for when it created the span |
| TokioHistory.TaskRowsNameCreator | experiments/mcp/attribute.py:504-535 | every syscall made inside a task spawned without field or parent is attributed to the request its creator worked for |
| TokioHistory.Progress | crates/causpan-runtime/src/lib.rs:109-177 | no interval gets stuck, and an idle thread may create and enter any new span |
| TokioRuntime.RuntimeLayer.OnNewSpan | crates/causpan-runtime/src/lib.rs:109-128 | a new span, of any identity, belongs to its own field whatever it names, else its explicit parent's owner, else its creator's request |
| TokioRuntime.RuntimeLayer.OnEnter | crates/causpan-runtime/src/lib.rs:129-137 | entering a relevant span numbers a new interval; other spans are ignored |
| TokioRuntime.RuntimeLayer.EmitSubmit | crates/causpan-runtime/src/lib.rs:138 | the submit marker names the span's owner and the new interval |
| TokioRuntime.RuntimeLayer.PushFrame | crates/causpan-runtime/src/lib.rs:139-146 | the enter marker and the new top of the stack agree |
| TokioRuntime.RuntimeLayer.OnExit | crates/causpan-runtime/src/lib.rs:162-174 | leaving pops the top frame and announces the outer span's context |
| TokioRuntime.RuntimeLayer.EmitComplete | crates/causpan-runtime/src/lib.rs:175 | the completion marker names the interval just left |
| TokioRuntime.RuntimeLayer.OnRecord | crates/causpan-runtime/src/lib.rs:148-161 | recording a context again is accepted exactly if it equals the span's owner |
| TokioSession.Session.Deliver | experiments/mcp/attribute.py:673-681 | processing what a step of the layer wrote keeps the mutable attributor mirroring the mutable layer |
| TokioSession.Session.Syscall | experiments/mcp/attribute.py:681 | a syscall at any moment, by any process, leaves the mirroring intact |
| TokioSession.Session.Mirrored | crates/causpan-runtime/src/lib.rs:63-71 | at any moment the attributor's fields hold the top of every thread's span stack and the stack's operations in order, and no error |
| TokioSession.Session.Working | crates/causpan-runtime/src/lib.rs:63-71 | at any moment the mutable layer holds for every thread what the events so far give it |
| AttributorClass.Attributor.NewFdTable | experiments/mcp/attribute.py:174-177 | table identifiers are fresh |
| AttributorClass.Attributor.FdTable | experiments/mcp/attribute.py:179-183 | a task gets a table on first use and keeps it |
| AttributorClass.Attributor.CopyFdTable | experiments/mcp/attribute.py:185-193 | the new table has every binding of the old one and the flags of the bound descriptors; nothing else changes |
| AttributorClass.Attributor.UpdateTables | experiments/mcp/attribute.py:330-455 | the in-place branches for every descriptor syscall compute the specified tables, the socket worked on, the listener and the new connection |
| AttributorClass.Attributor.ProcessMarker | experiments/mcp/attribute.py:197-310 | processing a marker in place is exactly the marker step, errors included |
| AttributorClass.Attributor.ProcessTrace | experiments/mcp/attribute.py:314-550 | processing a syscall in place is exactly the trace step: tables, ownership, graph, inheritance and row |
| AttributorClass.Attributor.BindSocketReads | experiments/mcp/attribute.py:554-588 | the in-place pass binds every row against the final owners and counts the rows it resolved |
| AttributorClass.Attributor.DropUnjustified | experiments/mcp/attribute.py:686-691 | exactly the execution edges into rows charged to a socket are dropped |
| AttributorClass.Attributor.ValidateInvariants | experiments/mcp/attribute.py:602-613 | the errors added are exactly the bracket, cancellation, job, stack and completion findings |
| AttributorClass.Attributor.Attribute | experiments/mcp/attribute.py:666-691 | the whole run equals the replay followed by the socket pass and validation; if no error remains, every published row is explained by the graph |
| TraceMeaning.RowsMean | experiments/mcp/attribute.py:504-535 | over any trace, the row of every syscall has its context, operation, job, origin, owners and candidates field by field as the thread's context and the connection worked on give them |
| TraceMeaning.GraphMeans | experiments/mcp/attribute.py:457-550 | the graph of a trace holds the seed and exactly the nodes and edges its lines draw, record by record |
| TraceMeaning.MarkerMeans | experiments/mcp/attribute.py:197-310 | what one marker does to thread contexts, jobs and running work, which faults it adds, and which records it draws |
| TraceMeaning.FindingsMean | experiments/mcp/attribute.py:602-613 | a finding of final validation is exactly an open bracket, job, stack or operation, or a cancelled operation that ran |
| TraceMeaning.PublishMeans | experiments/mcp/attribute.py:686-691 | everything is published but the execution edges into calls charged to a connection |
| KernelTables.StepSimulates | experiments/mcp/attribute.py:330-455 | after one event, every living task is shown exactly the identified descriptors it has, with the kernel's flags and the kernel's sharing, if and only if the event is none of those that part attributor and kernel |
| KernelTables.RunSimulates | experiments/mcp/attribute.py:174-193 | over every sequence of calls, unannounced changes, beginnings and ends of any tasks, untraced descriptors included, attributor and kernel agree before and after every event if and only if no event parts them |
| KernelTables.StartSimulates | experiments/mcp/attribute.py:148-159 | the empty maps agree with a kernel of which nothing has been seen |
| KernelTables.SimReveal | experiments/mcp/attribute.py:369-378 | a connect on an open unidentified socket that no other descriptor of a living task refers to, with the flag remembered, identifies it rightly for every task that has it |
| KernelTables.ConnectAfterExec | experiments/mcp/attribute.py:438-444 | from any agreeing states, after an exec a connect on a number not identified is rightly taken if and only if it is an open socket under no other living descriptor; neither the table left behind nor a flag misleads |
| KernelTables.InheritedSocket | experiments/mcp/attribute.py:369-378 | executing a program that connects the socket it inherited keeps attributor and kernel in agreement throughout |
| KernelTables.PhantomConnection | experiments/mcp/attribute.py:369-378 | from any agreeing states, a connect on a number that is not open leaves a connection the kernel does not have |
| KernelTables.UnreadRange | experiments/mcp/attribute.py:407-422 | from any agreeing states, a successful close_range whose range was not read parts them if and only if its true range holds an identified descriptor it closes or newly marks; the attributor shows everything as before |
| KernelTables.LostFlagDiverges | experiments/mcp/attribute.py:185-193 | a concrete run in which a fork drops the flag of an unidentified socket, so that after connect and exec the attributor shows a connection the kernel has closed; at the connect only the flag misleads |
| TableViews.SharingAndIsolation | experiments/mcp/attribute.py:407-436 | tasks that share a table see each other's changes; otherwise a call changes nothing another task sees |
| TableViews.ExecSurvivors | experiments/mcp/attribute.py:438-444 | exec keeps the old bindings minus the close-on-exec ones |
| TableViews.WorksOn | experiments/mcp/attribute.py:330-455 | which connection a call works on, which it creates and which it listens on, from what its descriptor showed before |
| IpcProtocol.JobsComplete | experiments/mcp/attribute.py:206-251 | in a run that validates, every job has one send and then either one enter and leave on a single thread or one cancellation |
| IpcProtocol.SenderHeldRequest | experiments/mcp/attribute.py:206-209 | a job is sent under the request its sender's context held |
| IpcProtocol.RelayKeepsRequest | experiments/mcp/attribute.py:216-220 | a job sent from inside a job keeps that job's request, and the graph records the relay |
| IpcProtocol.ChainKeepsRequest | experiments/mcp/attribute.py:206-220 | the jobs of a relay chain of any length are all sent under the request of the first |
| IpcProtocol.RowsAlongChain | experiments/mcp/attribute.py:504-535 | every syscall row inside the last job of a chain carries the request of the first |
| IpcProtocol.RowsInsideJob | experiments/mcp/attribute.py:504-535 | every syscall row inside the bracket of a job with a request carries the job and that request |
| SocketReads.OwnersGrow | experiments/mcp/attribute.py:446-450 | ownership sets of connections only grow, over every run |
| OwnershipHistory.OwnersAreGranted | experiments/mcp/attribute.py:446-450 | over every trace, a context owns a connection if and only if some earlier call that was not the capture's own worked on it, was a successful socket or accept, a connect, or one of the listed reads and writes, and ran under a context whose owners include it |
| SocketReads.ReadsFollowFinalOwners | experiments/mcp/attribute.py:554-588 | a read without its own request is unbound, bound or ambiguous exactly as the final owners are none, one or several, with those owners as candidates; other rows are unchanged |
| SocketReads.BindTwice | experiments/mcp/attribute.py:554-588 | a second pass changes no row and resolves the same number |
| SocketReads.ResolvedCounts | experiments/mcp/attribute.py:556-588 | the number reported is that of the rows the pass resolved |
| SocketReads.NewRowFits | experiments/mcp/attribute.py:473-535 | a fresh row without its own request names an owner of its socket or nothing |
| OwnershipEdges.ConnectedIffOwner | experiments/mcp/attribute.py:463-471 | at any point of any run a context has a connected edge to a connection exactly if it owns it, and no such edge is drawn twice |
| OwnershipEdges.OwnersDrawn | experiments/mcp/attribute.py:463-471 | drawing the owners not drawn before brings the edges level with the owner set |
| Inheritance.Inherits | experiments/mcp/attribute.py:485-489 | a child process keeps the request its parent's fork was charged to until its identity is forked again |
| Inheritance.ChildRowsInherit | experiments/mcp/attribute.py:504-535 | a child's syscalls without a context of their own are attributed to that request |
| Provenance.Extend | experiments/mcp/attribute.py:253-277 | walked edges only ever point at new nodes, once each, so the graph stays closed and walks stay without choices |
| Provenance.WalkIsDetermined | experiments/mcp/attribute.py:253-277 | whatever lies behind a node lies on the one way to its context |
| Provenance.SendInv | experiments/mcp/attribute.py:206-220 | sending a job hangs it on a node that stands for the sender's request |
| Provenance.SubmitInv | experiments/mcp/attribute.py:253-277 | a submission, through its span if it has one, hangs on the context node of its request |
| Provenance.CallInv | experiments/mcp/attribute.py:457-550 | a syscall keeps the graph closed and every node connected to the request it stands for |
| Provenance.RunInv | experiments/mcp/attribute.py:666-691 | these hold after every error-free run |
| Provenance.RowsExplained | experiments/mcp/attribute.py:686-691 | in the published graph no edge dangles; walking back from a row that ran under its own request ends in its context node and no other; reads charged to a socket have nothing executed behind them |
| BridgedProvenance.NodeRowsExplained | experiments/mcp/native/context.cc:94-160 | from every loaded request map, every row of every run of the Node bridge is so explained |
| BridgedProvenance.TokioRowsExplained | crates/causpan-runtime/src/lib.rs:109-177 | from every loaded request map, every row of every run of the Tokio layer is so explained |
| BridgedTraces.NodeReplayed | experiments/mcp/attribute.py:673-681 | reading the trace a Node run leaves is replaying that run |
| BridgedTraces.TokioReplayed | experiments/mcp/attribute.py:673-681 | reading the trace a Tokio run leaves is replaying that run |
| BridgedTraces.AttributeNode | experiments/mcp/attribute.py:666-691 | from a loaded map, once all announced work of a Node run has completed, the attributor's whole run ends without an error and with every row explained |
| BridgedTraces.AttributeTokio | experiments/mcp/attribute.py:666-691 | the same for a Tokio run whose announced intervals are closed |
| RequestMap.Load | experiments/mcp/attribute.py:57-76 | the map loads exactly if every entry is right where it stands; otherwise the first wrong entry's fault is reported |
| RequestMap.ComputeOwners | experiments/mcp/attribute.py:115-130 | owners are computed entry by entry, joins from their parents' owners |
| RequestMap.Seed | experiments/mcp/attribute.py:161-170 | the graph starts with a node per entry and a joined edge per parent |
| RequestMap.LoadedMappingValid | experiments/mcp/attribute.py:115-130 | in every loaded map requests own themselves and joins own at least one request and nothing else |
| RequestMap.LoadedGraphSeeded | experiments/mcp/attribute.py:161-170 | the seed of every loaded map is closed, has a node for every context, and carries no claim beyond them |
| MapMeaning.LoadableMeans | experiments/mcp/attribute.py:57-76 | a map loads exactly if every entry has a new number in range, a known kind and, when it joins, distinct earlier parents |
| MapMeaning.FaultMeans | experiments/mcp/attribute.py:65-73 | which fault a wrong entry is refused for, in the order the code checks |
| MapMeaning.OwnersMean | experiments/mcp/attribute.py:115-130 | a request is owned by itself, a join by exactly the owners of its parents |
| MapMeaning.SeedMeans | experiments/mcp/attribute.py:161-170 | the graph starts with exactly the entries' nodes and the joined edges from parents to joins |
| Registry.ContextRegistry.NewRequest | crates/causpan-runtime/src/context.rs:56-79 | reused or malformed identities and exhausted tags are refused; the identity stays taken even when tags are exhausted |
| Registry.ContextRegistry.NewJoin | crates/causpan-runtime/src/context.rs:83-109 | empty and foreign joins are refused before any state changes; a join writes its flattened roots in order |
| Registry.OwnersAreRoots | crates/causpan-runtime/src/context.rs:56-109 | after every sequence of requests and joins the written map loads, and the owners recomputed for each handed-out context are its roots, nested joins included |
| Registry.TagsNameOneContext | crates/causpan-runtime/src/context.rs:65-70 | a tag is never handed out for two different contexts |
| Registry.SortedElements | crates/causpan-runtime/src/context.rs:83-109 | the parents written for a join are its roots, increasing and without repetition |
| Bytes.LowestBitTest | experiments/mcp/ring_memory_probe.py:62-63 | the bit test on the number of entries accepts exactly the powers of two |
| Bytes.MaskIsModulo | experiments/mcp/ring_memory_probe.py:65 | masking with entries - 1 is the remainder by entries |
| Bytes.FromTo | experiments/mcp/ring_memory_probe.py:57 | reading little-endian bytes gives back the number written |
| RingMemory.Decode | experiments/mcp/ring_memory_probe.py:40-81 | a snapshot is refused exactly if its layout, counters or entries are not sound; otherwise the pending submissions then completions are returned; all reads are in bounds |
| RingMemory.SlotInside | experiments/mcp/ring_memory_probe.py:64-67 | masked free-running counters stay inside the ring |
| RingMemory.SqeRoundTrip | experiments/mcp/ring_memory_probe.py:70-77 | decoding a submission entry's 64 bytes returns the fields that were encoded |
| RingMemory.SqeOnto | experiments/mcp/ring_memory_probe.py:70-77 | any 64 bytes with zero auxiliary fields are the encoding of some entry |
| RingMemory.CqeRoundTrip | experiments/mcp/ring_memory_probe.py:79-80 | decoding a completion entry's 16 bytes returns the fields that were encoded |
| RingProducer.DecodeInvertsQueueing | experiments/mcp/ring_memory_probe.py:58-81 | for any head and tail, across counter wrap, and any array indirection, decoding returns exactly what is queued, in queue order |
| RingProducer.DecodeQueue | experiments/mcp/ring_memory_probe.py:40-81 | the decoder run on memory that holds a queue returns exactly that queue |
| RingProducer.AcceptedIsQueued | experiments/mcp/ring_memory_probe.py:58-81 | every accepted snapshot holds some queue of submissions and completions |
| SharedRing.WriteEntry | experiments/mcp/shared_ring.c:87-89 | clearing an entry and storing its fields writes exactly its encoding |
| SharedRing.Produce | experiments/mcp/shared_ring.c:80-97 | a batch that fits is appended, three entries per job with consecutive identities, behind what was pending and without touching it; one that does not fit changes nothing |
| SharedRing.BatchMeans | experiments/mcp/shared_ring.c:83-90 | each job asks for two seven-byte writes of the two payloads, to the first two 128-byte parts of its 512-byte slot, and one read that must fail, with consecutive identities |
| SharedRing.WrapKeepsSlot | experiments/mcp/shared_ring.c:86 | wrapping the counter to 32 bits does not change the slot |
| SharedRing.Drain | experiments/mcp/shared_ring.c:100-112 | reading from head to tail succeeds exactly if every completion is one the batch waits for, once, with the expected result |
| SharedRing.Reap | experiments/mcp/shared_ring.c:100-114 | reaping succeeds exactly if the completions are the batch's, each once; the head is then at the tail and the ring empty |
| SharedRing.ReapedIsBatch | experiments/mcp/shared_ring.c:100-114 | then every queued submission was completed |
| SharedRuns.Round | experiments/mcp/shared_ring.c:80-114 | one batch through produce, enter and reap on the byte arrays succeeds exactly if it fits, is consumed whole and is settled by its completions; the kernel is entered with exactly the batch pending, and the rings are empty again |
| SharedRuns.Work | experiments/mcp/shared_ring.c:61-117 | any number of batches on one pair of rings succeeds exactly if every batch is good; then each is completed in its own round, and both rings are empty, the submission counters where all batches add up to modulo 2^32 |
| SharedRuns.IdentitiesRunOn | experiments/mcp/shared_ring.c:61-90 | over any number of batches the identities are the counter's values in order, so none repeats |
| SharedRuns.SubmittedAt | experiments/mcp/shared_ring.c:61-97 | the i-th submission of a run's b-th batch stands behind all submissions of the batches before |
| SharedRuns.EverySubmissionCompleted | experiments/mcp/shared_ring.c:100-114 | in an accepted run every submission of every batch is completed: the writes with 7, the read with -9 |
| SharedRuns.NoneTwice | experiments/mcp/shared_ring.c:100-114 | and no identity is completed twice, within or across batches |
| JoinObservations.Join | experiments/mcp/ring_observations.py:9-51 | accepts exactly the well-formed record lists and returns one operation per completion, in completion order: operation code, descriptor, offset and requested length are the submission's, the result is the completion's, and it succeeded exactly if the result is not negative |
| JoinObservations.WithinRequest | experiments/mcp/ring_observations.py:12-45 | no operation returned transfers more than it requested, and every field is in its range |
| JoinObservations.EverySubmissionOnce | experiments/mcp/ring_observations.py:12-51 | the join is a bijection between submissions and operations |
| JoinObservations.OrderIrrelevant | experiments/mcp/ring_observations.py:1-7 | the order of submissions does not affect the result |
| SharedBatches.SharedGraph | experiments/mcp/shared_ring_adapter.py:36-75 | accepts exactly the rows whose batches are numbered without gaps, are full completion-waiting enters of the one ring, and keep the required time order |
| SharedBatches.AcceptedMeans | experiments/mcp/shared_ring_adapter.py:36-75 | row by row: accepted exactly if identities are unique and well formed, every enter submitted and awaited its whole batch, every submission was written in one request's job after the batch before and before its enter, and every completion outside any request after it |
| SharedBatches.SameIdentities | experiments/mcp/shared_ring_adapter.py:49-75 | a batch completes exactly the identities it submitted |
| SharedBatches.ReturnsAreOperations | experiments/mcp/shared_ring_adapter.py:54-56 | the enters' return values sum to the number of operations |
| SharedBatches.TimeOrder | experiments/mcp/shared_ring_adapter.py:60-75 | submissions finish before their enter, completions start after it returned, and a whole batch precedes every submission of a later one |
| Datagrams.FirstInFirstOut | experiments/mcp/descriptor_transfers.py:1-7 | the k-th dequeue obtains the k-th enqueued message |
| Datagrams.SerialOrder | experiments/mcp/descriptor_transfers.py:92-97 | calls that do not overlap can only have taken effect in their order |
| Datagrams.PairingIsTrue | experiments/mcp/descriptor_transfers.py:88-101 | in every run of the queue that explains an accepted direction, the k-th sorted receive obtained the k-th sorted send |
| Datagrams.ExplainableIff | experiments/mcp/descriptor_transfers.py:98-100 | a serialized balanced direction has an explaining run if and only if no receive ended before its send began |
| DatagramPairing.PairTransfers | experiments/mcp/descriptor_transfers.py:16-132 | pairs come from accepted channels only, in order of creation and first use; every other channel is reported with all its reasons, and every other carrier of descriptors is listed |
| Datagrams.FlowsCover | experiments/mcp/descriptor_transfers.py:84-86 | every message travels one of the directions listed for its channel, none listed twice |
| DatagramPairing.ReturnedPairsAreTrue | experiments/mcp/descriptor_transfers.py:60-125 | in every explaining run the receive of a returned pair obtained its send, and the two numbers it names stand at the same place in the two messages |
| TransferMeaning.EveryDescriptorOnce | experiments/mcp/descriptor_transfers.py:102-125 | the descriptors of the k-th message of an accepted direction are named by exactly one pair each, in order: the number and process of the k-th send, the number and process of the k-th receive, and the channel's first socketpair call |
| TransferMeaning.ReasonsMean | experiments/mcp/descriptor_transfers.py:42-101 | a channel is rejected for exactly the reasons its calls give, reason by reason |
| TransferMeaning.AcceptedMeans | experiments/mcp/descriptor_transfers.py:42-101 | a channel is accepted if and only if some call made it and nothing speaks against it |
| TransferMeaning.UnpairedMeans | experiments/mcp/descriptor_transfers.py:126-132 | listed as unpaired are exactly the successful messages with descriptors at neither end of a pair |
| TransferOrder.PairsInOrder | experiments/mcp/descriptor_transfers.py:88-125 | in the answer the descriptors of one message stand together, and before them only pairs of channels made earlier, directions of the channel used earlier, and earlier messages of the direction |
| TransferOrder.UnpairedInOrder | experiments/mcp/descriptor_transfers.py:127-130 | the unpaired messages are listed in trace order, each once |
| FileResource.ObservedFileResource | experiments/mcp/ring_observations.py:54-98 | an open is named exactly if it is the last event to disturb the descriptor and binds it to one absolute path in time |
| FileResource.ObservedIsBound | experiments/mcp/ring_observations.py:54-98 | in every execution consistent with the observed calls, unknown results, calls in flight and calls of unknown kind included, the descriptor is still bound to the named open |
| FileResource.NamedIffCertain | experiments/mcp/ring_observations.py:54-98 | an event is named if and only if it is an absolute open observed in time whose binding holds in every execution consistent with the observed calls, and no event without a result was disregarded since that could not have touched the descriptor |
| FileResource.OneHolder | experiments/mcp/ring_observations.py:54-98 | at most one event can be named |
| EvidenceChain.Close | experiments/mcp/query.py:53-74 | growing until nothing changes terminates with exactly the reachable nodes |
| EvidenceChain.EvidenceChain | experiments/mcp/query.py:44-76 | exactly the records kept, in graph order, whose nodes reach something wanted along causal edges |
| EvidenceChain.FollowedEdges | experiments/mcp/query.py:27-41 | which kinds of edges each of the three closures follows, and in which direction |
| EvidenceChain.ChainIsComplete | experiments/mcp/query.py:68-76 | a causal edge into the chain is in it, with its source |
| EvidenceChain.NothingDangles | experiments/mcp/query.py:74-76 | on a dangling-free graph every returned edge has both endpoints returned |
| EvidenceChain.OrderIrrelevant | experiments/mcp/query.py:62-73 | graphs with the same records, in any order and number, keep the same records |
| Windows.Inspect | experiments/mcp/inspect_native_windows.py:37-91 | an accepted log's batches are what its lines say, do not interleave, and are gapless per ring |
| Windows.AcceptedIsSound | experiments/mcp/inspect_native_windows.py:51-88 | every batch pairs its submission lines one to one with its completion lines, as many as its window |
| WindowHistory.AcceptedMeans | experiments/mcp/inspect_native_windows.py:37-91 | a log is accepted if and only if every line is right where it stands, no batch is left open and there is one; the batches are then the ones its lines make, field by field |
| Windows.WindowsAddUp | experiments/mcp/inspect_native_windows.py:57-86 | a ring's operations are its last tail minus its first head modulo 2^32 |
| Windows.TotalsAddUp | experiments/mcp/inspect_native_windows.py:90-91 | successful and failed operations add up to all operations |
| WatcherQueue.Join | experiments/mcp/native_watcher_queue.py:11-50 | what is reported is exactly what the lines establish, each outcome once and in order: matches are consecutive boundaries of one watcher that agree on the descriptor, with exactly the updates between them |
| WatcherQueue.EveryInsertionHasOne | experiments/mcp/native_watcher_queue.py:34-47 | every insertion is matched, canceled or unmatched |
| WatcherQueue.AtMostOneOutcome | experiments/mcp/native_watcher_queue.py:34-47 | and only one of these |
| BatchWriter.Server.FlushBatch | crates/causpan-tokio-server/src/main.rs:51-104 | entries are sorted, split into maximal runs of slots and processed in order, with each group's outcome from its policy, parents and registry |
| BatchWriter.RunsUnique | crates/causpan-tokio-server/src/main.rs:54-61 | the split into maximal runs is the only one |
| BatchWriter.BySlotIsStable | crates/causpan-tokio-server/src/main.rs:52 | contributions to one slot keep the order they came in |
| BatchWriter.GroupOutcomeMeans | crates/causpan-tokio-server/src/main.rs:62-79 | a group is written exactly if its entries agree on joining and, when they join, a registry joins all their contexts in order; otherwise which failure it gets, and that the registry is left alone |
| BatchWriter.RecordMeans | crates/causpan-tokio-server/src/main.rs:80-84 | a record is the text "slot:", the slot in decimal without leading zeros, then zeros |
| BatchWriter.CoalescedIsEach | crates/causpan-tokio-server/src/main.rs:80-86 | one coalesced write leaves the file as writing each entry's 128-byte record alone |
| BatchWriter.EveryEntryAnswered | crates/causpan-tokio-server/src/main.rs:100-102 | every entry gets exactly one reply |
| BatchWriter.RepliesMatchFile | crates/causpan-tokio-server/src/main.rs:80-102 | every byte of the file is its slot's record if some reply reports that slot written, and untouched otherwise |
| Arrivals.Sweep | experiments/mcp/ring_arrivals.py:42-44 | the peak is the greatest number of half-open intervals covering any instant |
| Arrivals.OverlapMeans | experiments/mcp/ring_arrivals.py:40-41 | two non-empty intervals overlap if and only if they share an instant |
| Arrivals.PeakNeedsPairs | experiments/mcp/ring_arrivals.py:40-44 | requests active at one instant overlap pairwise, so a peak of p needs p(p-1)/2 overlapping pairs |
| Arrivals.Report | experiments/mcp/ring_arrivals.py:40-44 | the reported peak and pair count satisfy that bound |

## Left out

- Trace, JSON and debugger-log parsing: events, markers and log lines arrive already lexed. Fields that are not integers read as None, or as a value the checks refuse.
- Markers after a fatal runtime failure (`INVARIANT_FAILURE`, `DUPLICATE_WORK`) on the bridge side: the attributor's reaction to them is modelled, the bridges' runs that lead to them are excluded by hypothesis.
- Request identities in rows: `request_ids` and candidate lists are the sets of owning contexts; looking up each context's RPC identity is not modelled.
- Socket ownership aliasing: descriptors that share a connection share it by identity, as a key into one map of owners, instead of by a shared dictionary object.
- `worker_tid`, per-span thread sets, report counters, node and edge attributes, and the cross-checks of the marker stream, dispatch log and parser quality.
- `_write_outputs`, hashing, scoring, and the transfer and ring edges appended to the graph after attribution.
- NodeReplay.RunSim: runs of fewer than 2^64 events, because the operation counter wraps there and the attributor would see a duplicate operation.
- TokioReplay.RunSim: the same bound, for the same reason.
- RingMemory.Decode: which fault is named when several apply; all of them refuse the snapshot.
- Mapping one region as both rings: the submission and completion regions are separate values.
- The kernel side of io_uring and the worker's job protocol, markers and file contents in `shared_ring.c`.
- SharedBatches.SharedGraph: which of its errors is raised; the binary identity, helper discovery, observation-write decoding and scope checks that precede it, and the graph it emits.
- DatagramPairing.PairTransfers: the wording of diagnostics and the order in which rejected channels are listed.
- FileResource.ObservedFileResource: paths are compared only by their first character; the regular expressions on arguments are decisions of the lexer.
- WatcherQueue.Join: context counts and mask comparison of the matched episodes.
- Windows.Inspect: the whole-log sentinels and the decoding of setup blocks; setups arrive as the line at which each ring was set up.
- BatchWriter.Server.FlushBatch: failing writes, whose partial effect on the file is unknown; slots are at most 99999, as the server's callers check.
- KernelTables.StepSimulates: calls that take effect in another order than they began.
- AttributorClass.Attributor.ProcessMarker: `worker_tid`, per-span thread sets and node attributes.
- AttributorClass.Attributor.ProcessTrace: node and edge attributes and the RPC identities in rows.
- AttributorClass.Attributor.ValidateInvariants: the comparison of the marker stream with the native log, and the parser-quality counters.
- AttributorClass.Attributor.Attribute: the transfer and ring edges added after attribution, and the report.
- Registry.ContextRegistry.NewRequest: a failing write of the map, after which the tag is spent.
- Registry.ContextRegistry.NewJoin: a failing write of the map, after which the tag is spent.
- SharedRing.Produce: the job markers and observation lines written between the entries.
- SharedRing.Reap: the observation lines written per completion.
- SharedRuns.Work: reading jobs from the input, and the replies printed per batch.
- Arrivals.Sweep: the protocol log and the batch table of the report.
- Request merging across graphs, process launching, proxies, agent drivers, native code patching, evaluation and plotting scripts.
