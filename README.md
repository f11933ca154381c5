# Factory tracing client, modelled in Dafny

This project models the client side of the Vaticle Factory / Grabl
performance-tracing library. An application opens an *analysis* on a
tracing backend, starts *trace trees* (a root trace per tracker and
iteration, child traces below it), attaches data and labels to traces and
ends them. Every one of these calls becomes one frame on a single outbound
gRPC stream.

The model covers four layers.

- **Identity codec** (`uuid_codec.dfy`, `uuid_util.dfy`). A 128-bit trace
  id (two signed 64-bit halves) is packed into 16 big-endian bytes, most
  significant half first, and unpacked again.
  - An absent or empty payload decodes to the reserved zero id.
  - A short payload decodes as if zero-padded on the right.
  - A payload over 16 bytes overflows the buffer.
  - The three copies of the codec in the repository share one
    specification. Each copy's `ToBuf`/`FromBuf` methods fill and read a
    16-byte array with `PutLong`/`GetLong`.
- **Trace stream** (`trace_stream.dfy`). A sequential state machine. While
  the finish latch is up, each send appends exactly one frame. The receive
  callbacks (`OnError`, `OnCompleted`) buffer errors and drop the latch.
  The next send, or `close`, raises the buffered errors as one exception:
  the oldest is the cause and the rest are suppressed, in order.
- **Trace API** (`tracing.dfy`, `tracing_api.dfy`). The standard client,
  analysis and trace objects, the inert no-op singletons, and the
  interface calls that dispatch between the two.
  - Ids: a root's root id is its own id, a child shares its parent's root
    id and names its parent's id, and every trace gets a fresh id.
  - Null arguments are rejected before anything is sent.
  - Every start, data, labels and end call sends exactly one frame.
- **Thread-contextual layers** (`thread_stack.dfy`,
  `factory_thread_static.dfy`, `grabl_thread_static.dfy`,
  `static_thread_tracing.dfy`). These are the per-thread stacks of
  contexts and of active traces, and three variants of the global
  `traceOnThread` rule:
  - extend the top trace;
  - else start a root from the top context;
  - else answer the no-op trace or throw, depending on the variant.

  Closing a trace or context pops its stack and throws
  `IllegalStateException` when the popped item is not the one being
  closed.

Modelling choices:

- Randomness is a parameter: the `newId` handed to each call that starts a
  trace, assumed fresh for its client. A ghost set `issued` records the
  ids already handed out.
- The clock is a parameter: `now`.
- The backend's answer to the blocking `create` call is a parameter:
  `created`.
- Java's static fields of each thread-contextual class become the fields
  of one object. A fresh object is a freshly loaded class.
- Java `null` is `None` of an `Option`.
- Each exception a call can throw is the `Failure` of a `Result`, with the
  exception's message.

## Model

| member | source | states |
|---|---|---|
| UuidCodec.EncodeLayout | client/UUIDUtil.java:72-76 | a non-null id encodes to exactly 16 bytes; the first 8 are the most significant half big-endian, the last 8 the least significant half |
| UuidCodec.RoundTrip | client/UUIDUtil.java:51-77 | decoding the encoding of any id gives that id back |
| UuidCodec.DecodeThenEncode | client/UUIDUtil.java:55-59 | every 16-byte payload decodes, and re-encoding the result gives the same 16 bytes |
| UuidCodec.NullAndEmpty | client/UUIDUtil.java:52-54 | null and empty payloads decode to the zero id; null encodes to the empty payload, so a null id round-trips to the zero id, not to null |
| UuidCodec.ZeroIdEncoding | client/UUIDUtil.java:72-76 | the zero id encodes to 16 zero bytes, which decode to the same id the empty payload does |
| UuidCodec.ShortPayloadIsPadded | client/UUIDUtil.java:55-58 | a payload of 1 to 15 bytes decodes, and decodes as that payload right-padded with zero bytes to 16 |
| UuidCodec.LongPayloadOverflows | client/UUIDUtil.java:55 | decoding fails with a buffer overflow exactly when the payload is longer than 16 bytes |
| UuidCodec.LongRoundTrip | client/UUIDUtil.java:73-74 | reading back the 8 bytes `putLong` writes for a signed 64-bit value gives that value |
| UuidCodec.BytesRoundTrip | client/UUIDUtil.java:57-58 | writing back the value `getLong` reads from 8 bytes gives those bytes |
| UuidCodec.PutLong | client/UUIDUtil.java:73-74 | writes the 8 big-endian bytes of a value at the offset and leaves every other cell of the buffer alone |
| UuidCodec.GetLong | client/UUIDUtil.java:57-58 | reads the signed value whose big-endian bytes sit at the offset |
| ClientUuidUtil.ToBuf | client/UUIDUtil.java:68-77 | null gives the empty payload; a non-null id gives 16 bytes that decode back to it |
| ClientUuidUtil.FromBuf | client/UUIDUtil.java:51-60 | the decoding of the payload; it fails exactly when the payload is over 16 bytes |
| ProtocolUuidUtil.ToBuf | protocol/util/ProtobufUUIDUtil.java:64-73 | null gives the empty payload; a non-null id gives 16 bytes that decode back to it |
| ProtocolUuidUtil.FromBuf | protocol/util/ProtobufUUIDUtil.java:47-56 | the decoding of the payload; it fails exactly when the payload is over 16 bytes |
| UtilUuidUtil.ToBuf | util/ProtobufUUIDUtil.java:26-35 | null gives the empty payload; a non-null id gives 16 bytes that decode back to it |
| UtilUuidUtil.FromBuf | util/ProtobufUUIDUtil.java:15-24 | the decoding of the payload; it fails exactly when the payload is over 16 bytes |
| TraceStreams.Aggregate | client/TraceStream.java:150-158 | nothing is raised exactly when the buffer is empty; otherwise the cause followed by the suppressed errors is the whole buffer in arrival order |
| TraceStreams.LostConnection | client/TraceStream.java:143-148 | a send on a finished stream always throws: the oldest buffered error (or "Connection Lost" when none) is the cause, and "Connection Lost" is the last suppressed error |
| TraceStreams.TraceStream.constructor | client/TraceStream.java:44-52 | a new stream has sent nothing, buffered nothing, and its latch is up |
| TraceStreams.TraceStream.ThrowErrors | client/TraceStream.java:150-158 | raises the aggregate of the buffer and leaves the buffer empty; sent frames and the latch are unchanged |
| TraceStreams.TraceStream.EnsureConnection | client/TraceStream.java:143-148 | does nothing while the latch is up; once it is down, raises the buffer with "Connection Lost" appended and empties the buffer |
| TraceStreams.TraceStream.TraceRootStart | client/TraceStream.java:54-70 | while the latch is up, appends exactly one root-start frame (id, analysis id, tracker, iteration, name, start time; no root id) and throws nothing; once it is down, sends nothing and throws |
| TraceStreams.TraceStream.TraceChildStart | client/TraceStream.java:72-86 | likewise for one child-start frame carrying id, root id, parent id, name and start time |
| TraceStreams.TraceStream.TraceData | client/TraceStream.java:88-100 | likewise for one data frame tagged with id and root id |
| TraceStreams.TraceStream.TraceLabels | client/TraceStream.java:102-114 | likewise for one labels frame, labels in argument order |
| TraceStreams.TraceStream.TraceEnd | client/TraceStream.java:116-128 | likewise for one end frame stamped with the end time |
| TraceStreams.TraceStream.OnError | client/TraceStream.java:167-170 | buffers the error at the end and drops the latch |
| TraceStreams.TraceStream.OnCompleted | client/TraceStream.java:173-175 | drops the latch and buffers nothing |
| TraceStreams.TraceStream.Close | client/TraceStream.java:130-141 | completes the outbound side, then raises everything buffered (including an error that arrives during the wait) and empties the buffer; a timed-out wait leaves the latch up and is not an error |
| TraceStreams.ErrorSurfacesOnNextSend | client/TraceStream.java:143-148 | after `onError(e)`, the next send throws with `e` as cause and "Connection Lost" suppressed, and sends nothing |
| TraceStreams.SendsFailAfterCompletion | client/TraceStream.java:143-148 | after the latch drops, every later send throws; the second no longer carries errors the first drained |
| TraceStreams.CloseReportsEveryError | client/TraceStream.java:130-141 | two errors buffered before `close` are both raised by it: the first as cause, the second suppressed |
| TraceStreams.CloseAfterTimeoutIsSilent | client/TraceStream.java:133-140 | a close whose wait times out with nothing buffered returns normally |
| TraceStreams.DrainedErrorsAreNotRepeated | client/TraceStream.java:130-158 | errors a failed send already raised are not raised again by `close` |
| TraceStreams.FiveFrameSession | client/TraceStream.java:54-128 | root start, child start, child end, root data and root end go out in call order, and an acknowledged close returns normally |
| Tracing.StandardClient.constructor | client/FactoryTracingStandard.java:40-45 | a standard client owns one fresh stream and has issued no ids |
| Tracing.StandardClient.Trace | client/FactoryTracingStandard.java:47-52 | null root id, parent id or name is rejected in that order with its message and nothing sent; otherwise exactly one child-start frame naming the given root and parent; the result has the fresh id and the given root id; it succeeds iff all three are non-null and the stream has not finished |
| Tracing.StandardClient.Analysis | client/FactoryTracingStandard.java:54-60 | null owner, repo, commit or analysis name is rejected in that order with its message; otherwise a new analysis holding the `long` id the backend answered |
| Tracing.StandardClient.UuidAnalysis | client/GrablTracingStandard.java:36-41 | null owner, repo or commit is rejected in that order; otherwise a new analysis whose id is the UUID decoded from the backend's answer |
| Tracing.StandardClient.Close | client/FactoryTracingStandard.java:62-70 | closes the stream first and reports what the stream's close raises; afterwards the outbound side is completed, nothing more was sent, the buffer is empty, and the latch is down unless the wait timed out |
| Tracing.AnalysisImpl.Trace | client/FactoryTracingStandard.java:87-91 | null name, then null tracker, is rejected before anything is sent; otherwise exactly one root-start frame with the analysis id, tracker and iteration; the new root has the fresh id as both id and root id; the copy at client/GrablTracingStandard.java:67-71 is the same code |
| Tracing.TraceImpl.GetRootId | client/FactoryTracingStandard.java:131-134 | a root's root id is its id; a child's is its parent's root id; every trace's is the id of the root of its tree |
| Tracing.TraceImpl.Trace | client/FactoryTracingStandard.java:110-113 | a null name is rejected before anything is sent; otherwise one child-start frame naming this trace as parent; the child has the fresh id and this trace's root id; the copy at client/GrablTracingStandard.java:90-93 is the same code |
| Tracing.TraceImpl.Data | client/FactoryTracingStandard.java:115-119 | a null data is rejected before anything is sent; otherwise one data frame tagged (id, root id); returns this trace |
| Tracing.TraceImpl.Labels | client/FactoryTracingStandard.java:121-124 | one labels frame tagged (id, root id); returns this trace; each call adds its own frame |
| Tracing.TraceImpl.End | client/FactoryTracingStandard.java:126-129 | one end frame tagged (id, root id); returns this trace |
| Tracing.StartRoot | client/FactoryTracingStandard.java:98-102 | the root constructor: the fresh id becomes both id and root id, it is recorded as issued, and exactly one root-start frame is sent; the copy at client/GrablTracingStandard.java:78-82 is the same code |
| Tracing.StartChild | client/FactoryTracingStandard.java:104-108 | the child constructor: keeps the given root id, takes the fresh id, sends exactly one child-start frame; the copy at client/GrablTracingStandard.java:84-88 is the same code |
| Tracing.RootIdIsTreeRoot | client/FactoryTracingStandard.java:104-113 | by induction over the tree, every descendant's root id is the id of its ultimate root |
| TracingApi.GetInstance | client/GrablTracingNoOp.java:38-40 | always the one no-op client |
| TracingApi.CreateNoOp | client/GrablTracing.java:71-73 | the no-op client |
| TracingApi.IdOf | client/GrablTracingNoOp.java:84-87 | the id is null exactly for the no-op trace |
| TracingApi.RootIdOf | client/GrablTracing.java:165-171 | null exactly for the no-op trace; for a root, the same value as its id; otherwise the id of the tree's root |
| TracingApi.ChildOf | client/GrablTracing.java:127-134 | the no-op trace answers itself; a standard trace begins a child of itself (fresh id, its root id, itself as parent) with one child-start frame |
| TracingApi.Data | client/GrablTracing.java:136-143 | returns the same trace; a standard trace sends one data frame, and rejects null data first |
| TracingApi.Labels | client/GrablTracing.java:145-151 | returns the same trace; a standard trace sends one labels frame per call |
| TracingApi.End | client/GrablTracing.java:153-163 | returns the same trace; a standard trace sends one end frame |
| TracingApi.RootOf | client/GrablTracing.java:110-121 | the no-op analysis answers the no-op trace; a standard analysis begins a new tree whose root has the fresh id as id and root id |
| TracingApi.Continue | client/GrablTracingStandard.java:29-34 | the no-op client answers the no-op trace; the standard client rejects a null argument with nothing sent, and otherwise hands out the new id and sends one child-start frame for the given root and parent, or throws "Connection Lost" with nothing sent once the latch is down |
| TracingApi.OpenAnalysis | client/FactoryTracingStandard.java:54-60 | the no-op client answers the no-op analysis; the standard one checks all four arguments and keeps the `long` id |
| TracingApi.OpenUuidAnalysis | client/GrablTracingNoOp.java:47-50 | the no-op client answers the no-op analysis; the standard one checks three arguments and keeps the decoded UUID id, failing on an over-long answer |
| TracingApi.Close | client/GrablTracingNoOp.java:52-55 | the no-op client's close does nothing and never throws; the standard one reports the stream's close and leaves its stream completed, with nothing more sent, the buffer empty and the latch down unless the wait timed out |
| TracingApi.SendAfterCloseFails | client/TraceStream.java:130-148 | after a close the backend acknowledges, a continued trace throws "Connection Lost" and its frame is never sent |
| TracingApi.NoOpIsInert | client/GrablTracingNoOp.java:42-96 | every call on the no-op client, analysis and trace answers the shared singletons, reports null ids and never throws |
| ThreadStacks.ThreadStack.constructor | client/FactoryTracingThreadStatic.java:361-362 | a new stack holds no deque |
| ThreadStacks.ThreadStack.Push | client/FactoryTracingThreadStatic.java:364-371 | puts the item on top, creating the deque when absent |
| ThreadStacks.ThreadStack.Pop | client/FactoryTracingThreadStatic.java:373-384 | an empty stack throws `NoSuchElementException`; otherwise returns the top, removes it, and clears the deque when that empties it; the copies at client/GrablTracingThreadStatic.java:327-360 and client/StaticThreadTracing.java:130-163 are the same code |
| ThreadStacks.ThreadStack.Peek | client/FactoryTracingThreadStatic.java:386-393 | null exactly when the stack is empty, else the top |
| ThreadStacks.StackIsLifo | client/FactoryTracingThreadStatic.java:361-394 | push then peek sees the pushed item; pops return the most recent push first; the emptied stack has no deque and pop on it throws |
| ThreadStacks.ContextImpl.constructor | client/FactoryTracingThreadStatic.java:317-321 | a new context pushes itself on the context stack |
| ThreadStacks.ContextImpl.Close | client/FactoryTracingThreadStatic.java:324-329 | pops the top context; throws "Contexts were ended in the wrong order" when it was another context, which stays popped; the copies at client/GrablTracingThreadStatic.java:290-295 and client/StaticThreadTracing.java:120-126 are the same code |
| ThreadStacks.TrackerOf | client/FactoryTracingThreadStatic.java:343-348 | the no-op context's tracker is the empty string; a real context's is the one it was given |
| ThreadStacks.IterationOf | client/FactoryTracingThreadStatic.java:350-353 | the no-op context's iteration is 0; a real context's is the one it was given |
| ThreadStacks.CloseContext | client/FactoryTracingThreadStatic.java:355-357 | closing the no-op context does nothing; closing a real one pops and checks it |
| ThreadStacks.ThreadTraceImpl.constructor | client/FactoryTracingThreadStatic.java:216-219 | a new thread trace pushes itself on the trace stack |
| ThreadStacks.ThreadTraceImpl.TraceOnThread | client/FactoryTracingThreadStatic.java:221-224 | pushes a new thread trace wrapping a child of the wrapped trace, with exactly one child-start frame; nothing is pushed when creating the child throws, which is "Cannot use null name" with nothing sent, or, on a finished stream, the buffered errors with "Connection Lost", drained, with nothing sent |
| ThreadStacks.ThreadTraceImpl.Trace | client/FactoryTracingThreadStatic.java:226-229 | a child of the wrapped trace, with the stack left alone; the new id is handed out and one child-start frame sent; a null name throws "Cannot use null name" with nothing sent, and a finished stream raises and drains the buffered errors with "Connection Lost" |
| ThreadStacks.ThreadTraceImpl.Data | client/FactoryTracingThreadStatic.java:231-235 | forwards to the wrapped trace and answers this thread trace; one data frame, or "Cannot use null data" with nothing sent, or on a finished stream the buffered errors with "Connection Lost", drained |
| ThreadStacks.ThreadTraceImpl.Labels | client/FactoryTracingThreadStatic.java:237-241 | forwards to the wrapped trace and answers this thread trace; one labels frame, or on a finished stream the buffered errors with "Connection Lost", drained |
| ThreadStacks.ThreadTraceImpl.End | client/FactoryTracingThreadStatic.java:243-247 | forwards to the wrapped trace and answers this thread trace; one end frame, or on a finished stream the buffered errors with "Connection Lost", drained |
| ThreadStacks.ThreadTraceImpl.GetId | client/FactoryTracingThreadStatic.java:254-257 | the wrapped trace's id, null exactly for a wrapped no-op trace |
| ThreadStacks.ThreadTraceImpl.GetRootId | client/FactoryTracingThreadStatic.java:249-252 | the wrapped trace's root id, the id of its tree's root |
| ThreadStacks.ThreadTraceImpl.Close | client/FactoryTracingThreadStatic.java:259-266 | ends the trace first (one end frame) and pops nothing when that throws, which it does on a finished stream with the buffered errors and "Connection Lost", drained; then pops, and throws "Traces were ended in the wrong order" when the popped trace is another, which stays popped; the copies at client/GrablTracingThreadStatic.java:226-232 and client/StaticThreadTracing.java:100-107 are the same code |
| ThreadStacks.ChildOnThread | client/FactoryTracingThreadStatic.java:272-275 | the no-op thread trace answers itself; a real one has the whole contract of `ThreadStacks.ThreadTraceImpl.TraceOnThread`: a pushed child with one child-start frame, or the exception with nothing pushed and nothing sent |
| ThreadStacks.ThreadTraceChild | client/FactoryTracingThreadStatic.java:278-281 | `trace(name)` of a thread trace: the no-op one answers itself; a real one gives a child of the wrapped trace, with the stack left alone, one child-start frame, or the exception with nothing sent; the forwarding side is at client/FactoryTracingThreadStatic.java:226-229 |
| ThreadStacks.ThreadTraceData | client/FactoryTracingThreadStatic.java:283-286 | `data(data)` of a thread trace: the no-op one answers itself; a real one answers itself after one data frame, or throws "Cannot use null data" with nothing sent, or the buffered errors with "Connection Lost" |
| ThreadStacks.ThreadTraceLabels | client/FactoryTracingThreadStatic.java:288-291 | `labels(...)` of a thread trace: the no-op one answers itself; a real one answers itself after one labels frame, or throws the buffered errors with "Connection Lost" |
| ThreadStacks.ThreadTraceEnd | client/FactoryTracingThreadStatic.java:293-296 | `end()` of a thread trace: the no-op one answers itself; a real one answers itself after one end frame and stays on the stack, or throws the buffered errors with "Connection Lost" |
| ThreadStacks.NoOpThreadTraceIsInert | client/FactoryTracingThreadStatic.java:270-310 | the no-op thread trace answers itself to `traceOnThread`, `trace`, `data`, `labels` and `end`, has null ids and closes without effect; the no-op context answers ("", 0) and closes without effect; the copy at client/GrablTracingThreadStatic.java:236-276 is the same code |
| ThreadStacks.ThreadTraceId | client/FactoryTracingThreadStatic.java:302-305 | null for the no-op thread trace |
| ThreadStacks.ThreadTraceRootId | client/FactoryTracingThreadStatic.java:297-300 | null for the no-op thread trace |
| ThreadStacks.CloseThreadTrace | client/FactoryTracingThreadStatic.java:307-309 | closing the no-op thread trace does nothing; closing a real one has the whole contract of `ThreadStacks.ThreadTraceImpl.Close`: the end frame or the stream's exception with nothing popped, "NoSuchElement" on an empty stack, or a pop checked against "Traces were ended in the wrong order" |
| ThreadStacks.ContextsEndedOutOfOrder | client/FactoryTracingThreadStatic.java:324-329 | closing contexts out of LIFO order throws each time, and each close still pops; closing them in LIFO order succeeds |
| FactoryThreadStatic.TraceRoute | client/FactoryTracingThreadStatic.java:106-126 | the Factory rule never throws; once enabled, a stacked trace is always extended; a root is started exactly when enabled, nothing is stacked, and both an analysis and a context are there; otherwise the no-op trace |
| FactoryThreadStatic.FactoryTracingThreadStatic.constructor | client/FactoryTracingThreadStatic.java:45-52 | disabled, with no client, no analysis and empty stacks |
| FactoryThreadStatic.FactoryTracingThreadStatic.SetGlobalTracingClient | client/FactoryTracingThreadStatic.java:59-65 | the first call stores the client and enables tracing; a second one throws and keeps the first client |
| FactoryThreadStatic.FactoryTracingThreadStatic.OpenGlobalAnalysis | client/FactoryTracingThreadStatic.java:83-92 | throws without a client, and throws on a second call; the flag is raised before the analysis is created, so it stays raised when creating throws |
| FactoryThreadStatic.FactoryTracingThreadStatic.TraceOnThread | client/FactoryTracingThreadStatic.java:106-126 | follows the Factory rule: no-op with nothing changed, a pushed child of the top trace (the same contract as `ThreadStacks.ThreadTraceImpl.TraceOnThread`), a "NullPointerException" with nothing changed when the analysis flag is raised but the analysis is missing, or a pushed root carrying the top context's tracker and iteration with exactly one root-start frame; when starting the root throws, nothing is pushed and nothing is sent; a null name or tracker throws its own "Cannot use null" message and leaves the buffer alone, and a finished stream raises and drains the buffered errors with "Connection Lost"; a child start changes nothing of the singletons outside the top trace's client |
| FactoryThreadStatic.FactoryTracingThreadStatic.ContinueTraceOnThread | client/FactoryTracingThreadStatic.java:136-142 | disabled, the no-op thread trace; otherwise, whatever the stacks hold, pushes a trace continuing the given root; through a standard client a null argument is rejected with nothing sent, and otherwise exactly one child-start frame naming the new id, the root and the parent is sent, or "Connection Lost" is thrown with nothing sent |
| FactoryThreadStatic.FactoryTracingThreadStatic.CurrentThreadTrace | client/FactoryTracingThreadStatic.java:149-155 | disabled, the no-op thread trace; otherwise the top of the trace stack, null when it is empty |
| FactoryThreadStatic.FactoryTracingThreadStatic.ContextOnThread | client/FactoryTracingThreadStatic.java:164-170 | enabled, exactly one new context on top; disabled, the no-op context and an untouched stack |
| FactoryThreadStatic.FactoryTracingThreadStatic.IsTracingEnabled | client/FactoryTracingThreadStatic.java:178-180 | true exactly when a global client was set |
| FactoryThreadStatic.DisabledIsNoOp | client/FactoryTracingThreadStatic.java:106-109 | before a client is set, traces and contexts are no-ops and neither stack grows |
| FactoryThreadStatic.SingletonsAreOneShot | client/FactoryTracingThreadStatic.java:59-92 | an analysis before a client, a second client and a second analysis are all refused, and the first client stays |
| FactoryThreadStatic.NoContextIsNoOp | client/FactoryTracingThreadStatic.java:116-123 | with a client and an analysis but no context, the answer is the no-op trace and nothing is sent |
| GrablThreadStatic.TraceRoute | client/GrablTracingThreadStatic.java:77-93 | the Grabl rule throws only with "No context found"; the answer is the no-op trace exactly when the analysis is not opened, whatever the stacks hold; it throws exactly when the analysis is opened, nothing is stacked and there is no context |
| GrablThreadStatic.DiffersFromFactory | client/GrablTracingThreadStatic.java:77-93 | the Grabl and Factory rules differ in exactly two cases: a stacked trace with no analysis, and an analysis with nothing stacked and no context |
| GrablThreadStatic.GrablTracingThreadStatic.constructor | client/GrablTracingThreadStatic.java:24-31 | disabled, with no client, no analysis and empty stacks |
| GrablThreadStatic.GrablTracingThreadStatic.SetGlobalTracingClient | client/GrablTracingThreadStatic.java:38-44 | one-shot; a second call throws and keeps the first client |
| GrablThreadStatic.GrablTracingThreadStatic.OpenGlobalAnalysis | client/GrablTracingThreadStatic.java:53-62 | requires a client and is one-shot; the flag is raised before the analysis is created |
| GrablThreadStatic.GrablTracingThreadStatic.TraceOnThread | client/GrablTracingThreadStatic.java:77-93 | follows the Grabl rule: no-op with nothing changed, a pushed child (the same contract as `ThreadStacks.ThreadTraceImpl.TraceOnThread`), a "NullPointerException" with nothing changed when the analysis flag is raised but the analysis is missing, "No context found" with nothing changed, or a pushed root from the top context with exactly one root-start frame; when starting the root throws, nothing is pushed and nothing is sent; a null name or tracker throws its own "Cannot use null" message and leaves the buffer alone, and a finished stream raises and drains the buffered errors with "Connection Lost"; a child start changes nothing of the singletons outside the top trace's client |
| GrablThreadStatic.GrablTracingThreadStatic.ContinueTraceOnThread | client/GrablTracingThreadStatic.java:103-109 | disabled, the no-op thread trace; otherwise, whatever the stacks hold, pushes a trace continuing the given root; through a standard client a null argument is rejected with nothing sent, and otherwise exactly one child-start frame naming the new id, the root and the parent is sent, or "Connection Lost" is thrown with nothing sent |
| GrablThreadStatic.GrablTracingThreadStatic.CurrentThreadTrace | client/GrablTracingThreadStatic.java:116-122 | disabled, the no-op thread trace; otherwise the top of the trace stack, null when it is empty |
| GrablThreadStatic.GrablTracingThreadStatic.ContextOnThread | client/GrablTracingThreadStatic.java:131-137 | enabled, exactly one new context on top; disabled, the no-op context and an untouched stack |
| GrablThreadStatic.GrablTracingThreadStatic.IsTracingEnabled | client/GrablTracingThreadStatic.java:145-147 | true exactly when a global client was set |
| GrablThreadStatic.NoContextThrows | client/GrablTracingThreadStatic.java:87-90 | with a client and an opened analysis but no context, `traceOnThread` throws "No context found" and nothing is sent |
| GrablThreadStatic.NoAnalysisIsNoOp | client/GrablTracingThreadStatic.java:78-80 | before the analysis is opened, even with a context on the stack, the answer is the no-op trace and nothing is sent |
| StaticThreading.TraceRoute | client/StaticThreadTracing.java:23-41 | the static rule never answers a no-op trace; a stacked trace is always extended; a missing context is reported before a missing analysis; "Cannot use static tracing without setting an analysis" exactly when nothing is stacked, a context exists and no analysis is set |
| StaticThreading.AgreesWithGrabl | client/StaticThreadTracing.java:23-41 | with an analysis set, the static rule is the Grabl rule with its analysis opened |
| StaticThreading.StaticThreadTracing.constructor | client/StaticThreadTracing.java:13-15 | no analysis and empty stacks |
| StaticThreading.StaticThreadTracing.SetAnalysis | client/StaticThreadTracing.java:17-21 | no guard: the last analysis set, null included, is the one kept |
| StaticThreading.StaticThreadTracing.TraceOnThread | client/StaticThreadTracing.java:23-41 | follows the static rule: a pushed child, a pushed root from the top context with exactly one root-start frame, or the rule's exception with nothing changed; when starting the root throws, nothing is pushed and nothing is sent; a null name or tracker throws its own "Cannot use null" message and leaves the buffer alone, and a finished stream raises and drains the buffered errors with "Connection Lost"; a child start changes nothing of the singletons outside the top trace's client |
| StaticThreading.StaticThreadTracing.ContextOnThread | client/StaticThreadTracing.java:43-45 | always exactly one new context on top |
| StaticThreading.StaticThreadTracing.ReplaceTrackerOnThread | client/StaticThreadTracing.java:47-53 | throws outside a context; otherwise pushes a context with the new tracker and the top context's iteration, the old one staying beneath it |
| StaticThreading.ContextReachesRoot | client/StaticThreadTracing.java:29-37 | a context's tracker and iteration reach the one root-start frame, whose id is the new trace's id |
| StaticThreading.SessionWithContext | client/StaticThreadTracing.java:43-45 | an analysis set and one context pushed leave one context on the stack, nothing sent and nothing buffered |
| StaticThreading.SessionWithRoot | client/StaticThreadTracing.java:23-41 | from a context, one root trace on the stack, with its root-start frame the only one sent |
| StaticThreading.ErrorSurfacesOnThread | client/TraceStream.java:143-158 | a backend error while a root is on the thread surfaces on the next `traceOnThread` as the cause with "Connection Lost" suppressed; the child frame is not sent, the buffer is drained and nothing is pushed |
| StaticThreading.RootThenChild | client/StaticThreadTracing.java:23-37 | a root from the context, then a child of it: two start frames, the child naming the root as both parent and root, both on the stack |
| StaticThreading.NestedSession | client/StaticThreadTracing.java:100-126 | root start, child start, child end, root end go out in that order; LIFO closes all succeed and both stacks end empty |
| StaticThreading.TracesEndedOutOfOrder | client/StaticThreadTracing.java:100-107 | closing a root under its child sends the root's end, pops the child and throws; the root is left on the stack |
| StaticThreading.ReplaceKeepsIteration | client/StaticThreadTracing.java:47-53 | replacing outside a context throws; inside, the new context keeps the iteration and the old one lies beneath |

## Left out

- Concurrency is left out because the model follows one thread. This
  covers the `synchronized` blocks and methods, `AtomicBoolean`
  atomicity, and the cross-thread isolation that `ThreadLocal` gives. The
  receive callbacks are ordinary methods called between sends.
- The one-minute latch wait is left out. Its result is the `Reply`
  parameter of `close`. The `InterruptedException` path of the wait is
  not modelled.
- Channel building, TLS, keep-alive, the auth interceptor and the
  channel shutdown in the standard clients' `close` are left out. They
  are gRPC plumbing with no logic to state.
- The blocking `create` call is not modelled. Its answer is a parameter.
- Frames are a datatype rather than the generated protobuf classes.
- `UUID.randomUUID` and `System.currentTimeMillis` are parameters. A new
  id is assumed fresh for its client.
- The logging decorator (`withLogging`, `FactoryTracingSlf4j`) is left
  out because it only forwards and logs.
- The `create` factories of `GrablTracing` are left out because they only
  build a channel.
- The demo servers and clients, the tests and the root-level prototype
  are left out because they carry no client logic.
- The `GrablTracing`, `Analysis` and `Trace` interfaces are modelled as
  datatypes with one case per implementation, and the interface calls
  dispatch on the case.
- The three private copies of `ThreadStack`, `ThreadTraceImpl` and the
  context classes are the same code. One model (module `ThreadStacks`)
  serves all three.
- TracingApi.Data: a second `data` call on the same trace, and any call
  after `end`, are undefined by the interface's documentation. The model
  neither forbids nor flags them. Each such call simply sends one more
  frame, as the code does.
- TraceStreams.TraceStream.TraceLabels: the labels are a sequence of
  non-null strings. A null labels array, or a null element in it, makes
  the Java throw a `NullPointerException` while it builds the frame
  (client/TraceStream.java:109), after the connection check has already
  drained the buffered errors. That path is not modelled.
- Tracing.TraceImpl.Labels: the same null labels array or null element is
  not modelled; the labels passed down are non-null by type.
- TracingApi.Labels: likewise, null labels are not modelled.
- ThreadStacks.ThreadTraceImpl.Labels: likewise, null labels are not
  modelled.
- TraceStreams.TraceStream.TraceRootStart: the Java `assert`s on null ids
  are not modelled. Ids are non-null by type.
- A `null` client passed to `setGlobalTracingClient` is not modelled.
  The client parameter is never null.
- Calling `onNext` on the request observer after `onCompleted` is not
  modelled. A send after a timed-out `close` is appended like any other
  send.
- The documentation says that no send succeeds after `close`. The code
  guarantees this only once the latch has dropped: after a timed-out wait
  the latch stays up and later sends still go out. The model follows the
  code (`TraceStreams.TraceStream.Close`).
- The analysis id is a `long` in the Factory client and a UUID in the
  Grabl client. The model carries either, as an opaque `AnalysisId`.
- The documentation of the Factory `traceOnThread` says it throws when
  there is neither a trace nor a context. The code answers the no-op
  trace instead, and the model follows the code
  (`FactoryThreadStatic.TraceRoute`).
