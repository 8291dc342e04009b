# Hostlink in Dafny

This project models the concurrent core of Hostlink, a controller and agent pair that carries raw TCP
connections and requests to machines behind a reverse-opened stream, and proves what its protocols
promise. Everything is stated over all inputs, all interleavings and all failures.

Concurrent code is modelled as a machine whose steps are one lock region, one channel operation, one
socket call or one stream send or receive. `Run(steps)` is the state after any sequence of steps; a step
that is not possible changes nothing. Every theorem about a machine is about `Run(steps)` for every
`steps`. Code that works in place is also given as it is, as a class or as a method with its loops, and
proved against the definitions the theorems are about.

| part | modules |
|---|---|
| the byte pipe | `Frames`, `Scripts`, `Relays`, `Endpoints`, `Workers`, `Pipes` |
| the reverse-open handshake | `Pairing`, `Sessions`, `HandleConn` |
| the request plane | `Streams`, `Waiters`, `RequestPlane`, `AgentConns`, `Uploads`, `UploadPlane`, `UploadCalls`, `Taps`, `PeerStreams`, `Deliveries` |
| who holds an agent | `Holders`, `Registries` |
| ports, listeners, activation | `PortKeys`, `Ports`, `RedisPorts`, `Listeners`, `Wakeups`, `Bindings`, `BindingClock` |
| log lines and metrics | `Logs`, `Names`, `Metrics`, `Labels`, `Scrapes` |

## Main results

- **End to end** (`Pipes.EndToEnd`). For two endpoints joined by any number of relays, the bytes written at
  one end are a prefix of those read at the other, and all of them once the write side is closed.
- **Pairing** (`Pairing.PairingSafety`, `Pairing.PairingUnique`). The stream spliced to a public connection
  was opened by the agent its mapping names, after dialling that mapping's target, whatever the directory
  says; and no stream serves two connections.
- **Retry before read** (`HandleConn.HandleConn`). The public socket is read exactly when the world's answers
  open a path and never before, it is closed exactly once, and the sessions opened on peers are exactly those
  the answers call for, the second only after a stale holder.
- **Delivery and cancellation** (`RequestPlane.StreamDelivery`, `RequestPlane.WaiterSafety`,
  `RequestPlane.CancelProtocol`), **uploads** (`UploadPlane.UploadsRoundTrip`, `UploadCalls.ResultTellsTruth`)
  and the way **from the agent to the consumer**, locally and through a peer (`PeerStreams.AbortIsTrue`,
  `Deliveries.AgentToConsumer`).
- **Holder identity** (`Holders.HolderIsLatest`, `Holders.NeverClosed`) and the exact content of the shared
  directory (`Holders.EntryExactly`).
- **Ports** (`RedisPorts.Allocate`, `RedisPorts.RefinesMemory`, `RedisPorts.LiveAllocationsDiffer`), **no lost
  wakeup** (`Wakeups.NoLostWakeup`) and the **activation barrier** (`Bindings.ActiveExactly`,
  `BindingClock.BoundMeansReported`, `BindingClock.ActiveMeansListening`).
- Four properties hold exactly under a condition, which is proved in both directions: relaying twice
  (`Relays.RelayTwice`), splitting a log independently of its chunks (`Logs.SplitsAlikeExactly`), keeping every
  CR that ends no line (`Logs.ReturnsKeptExactly`) and merging metrics independently of their order
  (`Metrics.OrderIrrelevantExactly`).

## What is assumed

- A gRPC stream is a FIFO queue; a send or a receive may fail at any moment, and a receive may miss what
  was sent last. Redis is an atomic map with expiry; a reply may be lost after its command took effect.
- Once a send on a Control stream has failed, every later send on it fails (`RequestPlane`); that is why a
  request.cancel on the wire always follows its request.
- SCAN lists every key that is there from its first step to its last (`BindingClock.ActiveCoversLivePods`).
- Session IDs are fresh, a connection registered under an agent's name leads to that agent, and an agent
  opens only sessions it was sent (`Pairing`, `HandleConn`).
- Concurrent uploads go to distinct paths (`UploadPlane`); request IDs are unique within a Control session.
- The commands of one reportBound pipeline that are executed at all are executed within a window. The
  theorems hold for every window up to the difference of the two key lifetimes; the code's is 3 seconds.
- Clocks, randomness, parsers and the network appear as parameters that may answer anything.

## Where the code and its comments differ

- pkg/tunnel/splice.go:133-134 says that SpliceStream returns when either direction resets. The code
  (pkg/tunnel/splice.go:147) waits for both directions, and so does the model.
- pkg/controller/registry.go:535 says that closeAll is called once. A replaced connection is closed by its
  successor and again by its own stream; the model allows any number of calls.
- pkg/agent/containers.go:22-25 says that the line limit bounds the message size. A line that arrives in one
  Write is emitted whole, so the bound is the limit plus that Write's length (`Logs.Bounded`).
- The same comment says that a longer line is emitted in pieces. Each piece loses a trailing CR, also when the
  cut falls inside the line (`Logs.ReturnsKeptExactly`).
- "Active" means that every listed pod had the port bound within the last 30 seconds and one pipeline, not
  that it has it bound now, because bound keys outlive an unbind (pkg/controller/bindings.go:23).

## Model

| member | source | states |
|---|---|---|
| `Relays.SpliceStreamDirection` | pkg/tunnel/splice.go:180-221 | the loop sends the reference output cut at the first failing send, and returns nil exactly for a clean direction that ends in EOF with every send accepted |
| `Relays.SendsNormalForm` | pkg/tunnel/splice.go:180-221 | for every input and however many sends succeed, the output is DATA*, an optional HALF_CLOSE, an optional RESET |
| `Relays.RelayedTranscript` | pkg/tunnel/splice.go:180-214 | a relay carries exactly the bytes and the clean end of its source |
| `Relays.RelayTwice` | pkg/tunnel/splice.go:180-221 | relaying a relayed direction again changes nothing if and only if the second stream ends in EOF or the first output already had a RESET |
| `Relays.RelayKeeps` | pkg/tunnel/splice.go:180-221 | at every step the relay has sent what the reference definition sends for the frames it has taken |
| `Relays.RelayCarries` | pkg/tunnel/splice.go:180-221 | at every moment what a relay has sent carries what it has taken and is in normal form |
| `Workers.SpliceConnToStream` | pkg/tunnel/splice.go:78-101 | the reading worker sends the framing of what it reads, cut at the first failing send, and fails exactly when it does not reach EOF with every send accepted |
| `Workers.WriteFrameData` | pkg/tunnel/splice.go:223-235 | how much is taken and where the socket then stands are exactly the reference's; success exactly when no write of it failed or took nothing |
| `Workers.SpliceStreamToConn` | pkg/tunnel/splice.go:103-131 | the bytes written and the ending are exactly those of the reference: the write side closed on HALF_CLOSE, only a failure on RESET, a RESET of its own for a failed write or close, an unknown frame or a broken stream |
| `Workers.WritesWhatIsCarried` | pkg/tunnel/splice.go:103-131 | what is written carries what the frames carry; on a healthy socket it is all of it, and the write side is closed exactly on a carried HALF_CLOSE |
| `Workers.ReaderRuns` | pkg/tunnel/splice.go:78-101 | from any endpoint about to read, what the reading loop does is a run of the machine: the bytes read, the frames sent and the end are the script's |
| `Workers.WriterRuns` | pkg/tunnel/splice.go:103-131 | from any endpoint waiting for a frame, what the writing loop does is a run of the machine: the bytes written, the RESET sent or not, and the end |
| `Endpoints.RunKeeps` | pkg/tunnel/splice.go:31-131 | every interleaving of the two workers keeps the four invariants of reading, writing, closing and sending |
| `Endpoints.Teardown` | pkg/tunnel/splice.go:31-131 | the socket is closed at most once, once on return, aborted exactly when a worker failed; nothing but RESET follows HALF_CLOSE; at most two RESETs |
| `Endpoints.NilExactly` | pkg/tunnel/splice.go:65-70 | nil is returned exactly when both directions were half-closed and the socket closed without error |
| `Pipes.EveryHopCarries` | pkg/tunnel/splice.go:133-148 | every relay hop of a lane carries what its own source was sent |
| `Pipes.EndToEnd` | pkg/tunnel/splice.go:31-235 | for any number of hops, both directions, every interleaving and failure: prefix always, equality once the write side is closed; each socket closed at most once |
| `Pairing.PairingSafety` | pkg/controller/forward_handler.go:43-208 | the stream spliced to a public connection was opened with OPEN by the mapping's agent after dialling the mapping's target, directly or through a sibling |
| `Pairing.PairingUnique` | pkg/controller/sessions.go:35-73 | no agent stream is spliced to two public connections |
| `Pairing.MappingWasStored` | pkg/controller/forward_handler.go:61-80 | the mapping a handler works with was in the store and not suspended at a moment of the run |
| `Pairing.DeliverNeverRefused` | pkg/controller/sessions.go:56-73 | in every run, however deliveries, timeouts and cancels race: at most one deliver finds a session's waiter, it never finds the channel of capacity one full, and what the channel holds is a stream of that session |
| `Pairing.RunKeeps` | pkg/controller/peer_forward.go:20-70 | every session, command and stream of every run names the agent and target of the mapping its connection looked up |
| `Sessions.SessionTable.Expect` | pkg/controller/sessions.go:35-52 | registers a fresh empty waiter under the session and changes no other |
| `Sessions.SessionTable.Cancel` | pkg/controller/sessions.go:42-50 | removes only its own waiter, so a second call changes nothing |
| `Sessions.SessionTable.Deliver` | pkg/controller/sessions.go:56-73 | succeeds exactly for a listed session, fills that waiter and no other, and unlists it |
| `HandleConn.HandleConn` | pkg/controller/forward_handler.go:43-90 | over the world's answers alone: the socket is read exactly when a path opens (found, not suspended, and an OPEN-first session or a peer's READY), the sessions opened on peers are exactly those the answers call for, a command is pushed and a session's done closed exactly when they should be; closed exactly once, never read early, no peer stream left open, and the one failure counted is the first failing step's |
| `HandleConn.HandleLocal` | pkg/controller/forward_handler.go:92-142 | established and read exactly when an OPEN-first session arrives; one close, the matching reason, one command pushed and the session's done closed once if it came |
| `HandleConn.HandleRemote` | pkg/controller/forward_handler.go:144-208 | read exactly when an attempt that is made gets READY; two peer sessions exactly when the first attempt met a stale holder and the second also got as far as asking; every obligation settled and the deciding attempt's reason counted |
| `HandleConn.Resolve` | pkg/controller/forward_handler.go:158-186 | an attempt asks a peer exactly when a holder other than this pod is located and a session ID is made; otherwise it fails with that reason |
| `HandleConn.PeerForward` | pkg/controller/peer_forward.go:109-158 | ready exactly on READY, stale exactly on FailedPrecondition, and a stream that is not ready is close-sent once |
| `Streams.Delivers` | pkg/controller/registry.go:324-388 | a reliable stream's channel gets a prefix of the agent's frames, an advisory one's a subsequence; one Final at most and last, dropped only after done; no consumer is stranded |
| `Streams.CancelsOnce` | pkg/controller/registry.go:337-369 | at most one request.cancel, never for a claimed stream, never before the opening send |
| `Waiters.StaysSafe` | pkg/controller/registry.go:271-313 | no send on a closed channel, no double close, deliver never blocks, the result is the agent's first, and a blocked waiter has a wakeup coming |
| `RequestPlane.StreamDelivery` | pkg/controller/registry.go:479-552 | the delivery promise for every stream of every run of a whole Control session |
| `RequestPlane.WaiterSafety` | pkg/controller/registry.go:402-460 | the waiter promise for every unary call and upload of every run, with any number of closeAll calls |
| `RequestPlane.ClosedIsEmpty` | pkg/controller/registry.go:536-552 | once closed, nothing is registered, now or later |
| `RequestPlane.CancelProtocol` | pkg/agent/agent.go:336-427 | on the wire a cancel follows its request, comes at most once and never for a claimed stream; once processed, the handler has finished or its context is cancelled |
| `RequestPlane.ProcessKeeps` | pkg/agent/agent.go:369-427 | the agent's receive loop lists a streaming handler before it can read that handler's cancel |
| `AgentConns.AgentConn.constructor` | pkg/controller/registry.go:259-267 | a new connection shows the empty session |
| `AgentConns.AgentConn.RegisterUnary` | pkg/controller/registry.go:271-282 | a request ID no request of the session has, registered exactly unless closed |
| `AgentConns.AgentConn.RegisterStream` | pkg/controller/registry.go:324-335 | the same for a streaming request |
| `AgentConns.AgentConn.RemoveUnary` | pkg/controller/registry.go:284-288 | the deferred removal is the machine's leaving step |
| `AgentConns.AgentConn.ClaimResult` | pkg/controller/registry.go:479-500 | a result claims a stream before a unary request, takes out exactly that registration, and is dropped when there is none |
| `AgentConns.AgentConn.CancelStream` | pkg/controller/registry.go:337-345 | says whether the stream was live and the connection closed, and takes out exactly that stream |
| `AgentConns.AgentConn.CloseAll` | pkg/controller/registry.go:536-552 | closes every pending channel, collects every stream once, and leaves nothing registered |
| `Uploads.StreamUploadBody` | pkg/controller/api.go:227-246 | sends the chunking of what it reads, cut at the first failing send, and succeeds exactly when the body reached EOF and every chunk was accepted |
| `Uploads.ConsumeUpload` | pkg/agent/fs.go:452-483 | commits only with exactly the body told by the chunks up to the last one, reports 201 exactly then, and on a healthy disk commits whenever the end arrives |
| `Uploads.UploadRoundTrip` | pkg/agent/fs.go:351-483 | one upload, direct or relayed: a commit means the body was read to EOF and the file equals it; 201 exactly for a commit; a partial file is removed unless removal fails; an unopened path is untouched |
| `UploadPlane.TakeRoutes` | pkg/agent/fs.go:363-374 | the next command on the shared stream is the very chunk its upload expects next |
| `UploadPlane.UploadsRoundTrip` | pkg/controller/peer.go:131-183 | the round trip for every upload of any number interleaved on one Control stream |
| `UploadCalls.ResultTellsTruth` | pkg/controller/registry.go:443-460 | a caller whose await returns a result: 201 if and only if the file was committed, and then the whole body was read and the file equals it |
| `Taps.ConsumeStream` | pkg/controller/api.go:198-221 | over any schedule of arrivals, closings and picks, with senders blocked by a full channel, the nested loops end exactly where the reference reading of the schedule does; what they hand on and whether they abort are its |
| `Taps.Drain` | pkg/controller/api.go:207-218 | the inner loop, from any draining state, ends exactly where the reference reading of the remaining schedule does: a frame whenever there is one, the end as soon as there is none |
| `Taps.ConsumedFaithfully` | pkg/controller/api.go:198-221 | the loop's run is a run of the reader machine fed with exactly what arrived in the turns it looked at, in order, and it looks at all turns unless it ended |
| `Taps.HandsOnWhatArrived` | pkg/controller/api.go:193-221 | what is handed to onFrame is a prefix of what arrived, with nothing after the first Final, and an abort only after done with no Final handed on |
| `Taps.ReadsInOrder` | pkg/controller/api.go:198-221 | a prefix of what was put, nothing after the first Final, and no abort when a Final was put before done closed |
| `PeerStreams.RelayedPrefix` | pkg/controller/peer.go:69-124 | frames handed to onFrame on the requesting pod are a prefix of those the holding pod queued, stopping at the first Final |
| `PeerStreams.AbortIsTrue` | pkg/controller/peer.go:230-276 | with no failure between the pods, an abort means the agent disconnected with no Final queued by then, and every frame queued by then was handed on |
| `PeerStreams.ArrivedFinalWins` | pkg/controller/peer.go:247-273 | even with failures, a Final that reached the requesting pod is never reported as an abort |
| `Deliveries.AgentToConsumer` | pkg/controller/registry.go:316-388 | from the agent to onFrame, locally and across the peer hop, in every run: a prefix of the agent's frames for a reliable method, a subsequence for an advisory one, nothing after the first Final |
| `Deliveries.AbortMeansClosed` | pkg/controller/api.go:193-221 | without a failure between the pods an abort means the registration's done was closed before a Final entered the channel |
| `Holders.HolderIsLatest` | pkg/controller/registry.go:81-111 | get returns the connection added last for the agent on the pod, or nothing once that connection's own stream removed it |
| `Holders.NeverClosed` | pkg/controller/service.go:38-82 | no registry ever contains a connection on which closeAll has run |
| `Holders.EntryExactly` | pkg/controller/registry.go:36-40 | in every run the directory names a pod for an agent if and only if a stream of the agent on that pod wrote the entry and since then it has not expired, no stream of the agent wrote another, and no stream of the agent on that very pod was torn down |
| `Holders.EntrySurvives` | pkg/controller/registry.go:93-104 | an entry outlives any number of teardowns on other pods, in any interleaving |
| `Holders.DirectoryNamesHolders` | pkg/controller/registry.go:182-203 | the directory never names a pod on which the agent has not registered |
| `Registries.Registry.Add` | pkg/controller/registry.go:81-88 | replaces the entry, hands back the displaced connection, and is the machine's hello step |
| `Registries.Registry.Remove` | pkg/controller/registry.go:93-104 | removes only while the entry is this very connection, and is the machine's remove step |
| `PortKeys.RangeRoundTrip` | pkg/controller/ports.go:50-84 | every valid range, written out, parses back to itself |
| `PortKeys.PortKeyRoundTrip` | pkg/controller/ports.go:86-102 | the port read from a port's key is that port |
| `PortKeys.PortKeyInjective` | pkg/controller/ports.go:86-88 | no two ports share a key |
| `PortKeys.BoundKeyInjective` | pkg/controller/bindings.go:42-44 | no two pairs of port and pod share a bound key, whatever characters the address has |
| `Ports.PortWatchers.Watch` | pkg/controller/ports.go:111-126 | a new subscriber without a token, or none at all when closed |
| `Ports.PortWatchers.Notify` | pkg/controller/ports.go:134-143 | afterwards every subscriber holds a token, and the subscribers are the same |
| `Ports.PortWatchers.Remove` | pkg/controller/ports.go:128-132 | removes that subscriber and no other |
| `Ports.PortWatchers.Close` | pkg/controller/ports.go:145-150 | no subscriber is left and none will be added |
| `Ports.MemPortStore.Allocate` | pkg/controller/ports.go:169-186 | the least free port, exhausted exactly when there is none, invalid exactly for a bad range; every subscriber signalled exactly when the port set changed; no overflow at the top of the range |
| `Ports.MemPortStore.Release` | pkg/controller/ports.go:188-197 | removes that port only; an unknown port is no error and no signal |
| `Ports.MemPortStore.Update` | pkg/controller/ports.go:209-217 | changes an existing mapping, never the port set, and signals nobody |
| `Ports.MemPortStore.ReleaseByAgent` | pkg/controller/ports.go:227-241 | removes exactly the agent's ports, reports exactly those, and signals exactly when there were some |
| `Ports.AnswerUnique` | pkg/controller/ports.go:169-186 | an allocation's answer is determined by the table and the range |
| `RedisPorts.ReadBatch` | pkg/controller/ports.go:278-286 | the batch reports exactly the free ports of its stretch |
| `RedisPorts.Allocate` | pkg/controller/ports.go:267-307 | under any interference and lost replies: never overwrites a live mapping, every port below the allocated one was seen taken, exhausted means every port was seen taken, fails only on a lost reply; batches tile the range without overflow and the loop ends |
| `RedisPorts.RefinesMemory` | pkg/controller/ports.go:267-307 | with nobody touching its range, the batched allocator gives the in-memory allocator's answer |
| `RedisPorts.SetOnePort` | pkg/controller/ports.go:86-88 | a claim changes that port's mapping and no other port's |
| `RedisPorts.ClaimsSeparated` | pkg/controller/ports.go:292-299 | in any history, two successful claims of one port have a release between them |
| `RedisPorts.LiveAllocationsDiffer` | pkg/controller/ports.go:267-307 | two allocations that return the same port, anyhow interleaved, have a release of it between their claims |
| `Listeners.ListenerManager.Reconcile` | pkg/controller/listeners.go:63-113 | the exact bound set given which closes and binds fail; kept listeners are the same untouched objects, dropped ones are closed, new ones open; both lists ascending without repetition; a cancelled manager changes nothing |
| `Listeners.ListenerManager.CloseUnwanted` | pkg/controller/listeners.go:71-81 | keeps exactly the wanted listeners and those whose close failed |
| `Listeners.ListenerManager.BindMissing` | pkg/controller/listeners.go:83-110 | one failing bind does not stop the others; port 0 always fails |
| `Listeners.ListenerManager.Close` | pkg/controller/listeners.go:187-205 | closes every listener, empties the table, and cancels |
| `Listeners.SortedPorts` | pkg/controller/listeners.go:207-210 | ascending, with the same elements |
| `Listeners.SortedKeys` | pkg/controller/listeners.go:122-128 | the bound ports, each once, ascending |
| `Listeners.ConvergedExactly` | pkg/controller/listeners.go:63-113 | a round ends with exactly the desired ports if and only if port 0 is not desired and no needed close or bind failed |
| `Listeners.RoundRepairs` | pkg/controller/listeners.go:61-63 | whatever failed in one round, a clean round over the same ports repairs it |
| `Wakeups.NoLostWakeup` | pkg/controller/forward_handler.go:216-251 | asleep with no token and no signal owed, the last snapshot is the store's port set, and after a clean round so are the bound listeners |
| `Wakeups.RunKeeps` | pkg/controller/ports.go:104-241 | in every run an outdated snapshot has a token or a signal on its way, and an open store keeps its subscriber |
| `Bindings.States` | pkg/controller/bindings.go:89-113 | every mapping gets a verdict: suspended wins, no tracker means pending, local decides alone, Redis by what its batches saw; an error only when Redis failed and something was undecided |
| `Bindings.ResolveRedis` | pkg/controller/bindings.go:129-154 | active means every listed pod's key was seen, pending means one was seen missing or no pod is live; other ports keep their state |
| `Bindings.ResolveLocal` | pkg/controller/bindings.go:115-127 | active exactly for the undecided ports bound here |
| `Bindings.BoundSet` | pkg/controller/bindings.go:176-195 | every key is answered as some batch of the call found it, for any number of keys; an error exactly when a batch failed |
| `Bindings.ActiveExactly` | pkg/controller/bindings.go:85-154 | on a store that holds still: active exactly when not suspended, some pod is live and every live pod's bound key is present |
| `Bindings.KeysFaithful` | pkg/controller/bindings.go:42-44 | which pod reported which port can be read off the keys |
| `BindingClock.RunKeeps` | pkg/controller/bindings.go:66-83 | in every timed run each bound key was set within its pipeline's window and is outlived by its pod's liveness key as far as the lifetimes differ |
| `BindingClock.RunTruthful` | pkg/controller/bindings.go:70-77 | every key set or about to be set names a port its pod was listening on when the report began |
| `BindingClock.BoundMeansReported` | pkg/controller/bindings.go:63-83 | an unexpired bound key means the pod reported the port within 30 seconds, and its liveness key is unexpired for every window up to 15 seconds |
| `BindingClock.ActiveMeansListening` | pkg/controller/bindings.go:85-154 | for every verdict on every timed run, with keys set, refreshed and expiring between its batches: if a port is active, each listed pod has a batch at whose moment it had reported the port within 30 seconds, from a reading at most one pipeline older, and was counted alive |
| `BindingClock.ActiveCoversLivePods` | pkg/controller/bindings.go:129-173 | the same for every pod that was alive throughout the scan, since the scan then lists it: no live pod is missed |
| `Logs.LogLineWriter.Write` | pkg/agent/containers.go:432-448 | the in-place loop emits exactly the lines of buffer plus chunk, keeps the tail, and cuts a tail that reached the limit |
| `Logs.LogLineWriter.Flush` | pkg/agent/containers.go:455-461 | emits a non-empty tail once |
| `Logs.SplitsAlikeExactly` | pkg/agent/containers.go:422-461 | every chunking emits the whole-text split if and only if every ended line is under 64 KiB and the last is at most that |
| `Logs.ChunkingIrrelevant` | pkg/agent/containers.go:422-461 | such a text is split the same way however it arrives |
| `Logs.CutTwice` | pkg/agent/containers.go:443-446 | a Write that ends inside a long line emits one line more than the whole-text split |
| `Logs.Bounded` | pkg/agent/containers.go:22-25 | for all inputs the buffer stays under 64 KiB and a line is shorter than 64 KiB plus its Write |
| `Logs.NothingLost` | pkg/agent/containers.go:432-461 | for all inputs and chunkings: the text is a sequence of pieces, each with the newline that ended it, and what is emitted is exactly these pieces in order, each without one trailing CR; a piece no newline ended, but the last, has at least 64 KiB |
| `Logs.ReturnsKeptExactly` | pkg/agent/containers.go:443-453 | the emitted pieces of every line put together are the lines of the whole text if and only if no cut falls right after a CR with more of the line to come; otherwise that CR is lost though it ends no line |
| `Metrics.FamilyMerger.Add` | pkg/controller/metrics.go:246-261 | one merge step; the map stays keyed by name |
| `Metrics.FamilyMerger.Families` | pkg/controller/metrics.go:264-273 | every merged family once, in strictly ascending order of names |
| `Metrics.MergeGathers` | pkg/controller/metrics.go:242-261 | a name is present exactly if some family has it; its type is the first one's; its series are exactly those of families of that name and type |
| `Metrics.OrderIrrelevantExactly` | pkg/controller/metrics.go:242-261 | type and multiset of series of a name are the same for every order of arrival if and only if its families agree on the type |
| `Metrics.DisagreeingOrder` | pkg/controller/metrics.go:257-259 | for families that disagree, an order that changes the result |
| `Metrics.EmptyNameIgnored` | pkg/controller/metrics.go:247-249 | a family without a name never appears |
| `Labels.InjectLabels` | pkg/controller/metrics.go:278-288 | every series keeps its value and gets its labels injected; name, help and type unchanged |
| `Labels.InjectSeries` | pkg/controller/metrics.go:279-287 | in whatever order the constants are visited: sorted, what was there before and exactly the missing constants |
| `Labels.InjectedUniqueExactly` | pkg/controller/metrics.go:275-288 | label names are unique afterwards if and only if they were before |
| `Labels.InjectedAscending` | pkg/controller/metrics.go:286 | unique names come out strictly ascending |
| `Labels.InjectedDetermined` | pkg/controller/metrics.go:278-288 | the order of map iteration does not show in the result |
| `Scrapes.ScrapeAccumulator.Ingest` | pkg/controller/metrics.go:168-204 | one step of the accumulator on its buffers, and which body is folded with which gauge |
| `Scrapes.ScrapeAccumulator.OnFrame` | pkg/controller/metrics.go:139-157 | finished exactly on the terminal frame, scraped exactly on a terminal 200, and a frame that cannot be decoded changes nothing |
| `Scrapes.Demultiplexes` | pkg/controller/metrics.go:168-204 | however exporters interleave, what is folded for one, in what order and with which gauges, is what its own frames alone give |
| `Scrapes.OwnFramesSuffice` | pkg/controller/metrics.go:168-204 | other exporters' frames make no difference |
| `Scrapes.BodyRoundTrip` | pkg/controller/metrics.go:168-204 | a body cut into any chunks is folded whole, byte for byte |

## Left out

- gRPC, TLS, Redis, Docker and HTTP client libraries: streams are queues that may fail and Redis is a map with expiry.
- REST handlers, status codes and server-sent events: wrappers over what is modelled.
- Validation of the opening peer frame (pkg/controller/peer_forward.go:72-105): three independent checks; a handler that gets past them starts where `Pairing` does.
- Redis pub/sub for port changes and its reconnects: delivery depends on the service; no lost wakeup is proved for the in-memory store.
- redisPortStore.releaseByAgent: its read and delete are two commands, so it may delete a mapping another client has just made.
- redisPortStore.desired and update, and SCAN paging: loops over keys with per-key decoding; the SCAN result of livePods is a parameter of `Bindings.States`.
- Suspending and resuming ports on container events: read then write in unordered goroutines, so only sequential claims hold.
- A forward session's done channel: a waiter that times out while its session is being delivered never closes it, so nothing is claimed beyond what a handler that took the session does.
- The agent's cancel map across Control sessions: it is shared and request IDs restart, so cancel claims are per session.
- `Holders`: a held agent need not be in the directory, since the mapping is dropped outside the lock; the converse is what is proved.
- Accept loops, their backoff and reconnect delays: no state beyond a duration.
- Container, image and network operations, file stat, list, mkdir and remove, and path resolution: single calls into the daemon or the operating system.
- Aliasing of metric families: `Metrics` merges values, while the code appends to the first family's object in place.
- HELP text of merged families: the first family's is kept and depends on the order.
- Parsing of metric expositions: a parameter that accepts or rejects a body.
