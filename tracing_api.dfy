/** The `GrablTracing`, `Analysis` and `Trace` interfaces, with their two
    implementations side by side: the standard one (module `Tracing`) and
    the inert singletons of `client/GrablTracingNoOp.java`. Each interface
    method dispatches on which implementation it holds. */
module TracingApi {
  import opened Wrappers
  import opened UuidCodec
  import opened TraceStreams
  import opened Tracing

  /** A `Trace`: the no-op singleton, or a standard trace. */
  datatype Trace = NoOpTrace | Standard(impl: TraceImpl)

  /** An `Analysis`: the no-op singleton, or a standard analysis. */
  datatype Analysis = NoOpAnalysis | StandardAnalysis(impl: AnalysisImpl)

  /** A `GrablTracing` client: the no-op singleton, or a standard client. */
  datatype Client = NoOpClient | StandardTracing(client: StandardClient)

  /** `GrablTracingNoOp.getInstance`: always the one no-op client. */
  function GetInstance(): (c: Client)
    ensures c.NoOpClient?
  {
    NoOpClient
  }

  /** `GrablTracing.createNoOp`: the no-op client. */
  function CreateNoOp(): (c: Client)
    ensures c == GetInstance()
  {
    GetInstance()
  }

  /** The objects a call on `t` may change: its client and stream. */
  function TraceObjects(t: Trace): set<object>
  {
    if t.Standard? then {t.impl.client, t.impl.client.stream} else {}
  }

  function AnalysisObjects(a: Analysis): set<object>
  {
    if a.StandardAnalysis? then {a.impl.client, a.impl.client.stream} else {}
  }

  function ClientObjects(c: Client): set<object>
  {
    if c.StandardTracing? then {c.client, c.client.stream} else {}
  }

  /** The frames sent so far on the stream behind `t` (none for no-op). */
  function SentBy(t: Trace): seq<Frame>
    reads TraceObjects(t)
  {
    if t.Standard? then t.impl.client.stream.sent else []
  }

  /** The errors buffered on the stream behind `t` (none for no-op). */
  function ErrorsOf(t: Trace): seq<Throwable>
    reads TraceObjects(t)
  {
    if t.Standard? then t.impl.client.stream.errors else []
  }

  /** The stream behind `t` has finished: every further send on it throws. */
  predicate Finished(t: Trace)
    reads TraceObjects(t)
  {
    t.Standard? && t.impl.client.stream.finished
  }

  predicate AnalysisFinished(a: Analysis)
    reads AnalysisObjects(a)
  {
    a.StandardAnalysis? && a.impl.client.stream.finished
  }

  /** The frames the standard trace `t` sends, as its stream carries them. */
  function ChildFrame(parent: TraceImpl, newId: Uuid, name: string, now: Long): Frame
  {
    ChildStart(Encode(Some(newId)), Encode(Some(parent.rootId)), Encode(Some(parent.id)), name, now)
  }

  function RootFrame(a: AnalysisImpl, newId: Uuid, tracker: string, iteration: Int32, name: string,
                     now: Long): Frame
  {
    RootStart(Encode(Some(newId)), a.analysisId, tracker, iteration, name, now)
  }

  function DataFrame(t: TraceImpl, data: string): Frame
  {
    TraceStreams.Data(Encode(Some(t.id)), Encode(Some(t.rootId)), data)
  }

  function LabelsFrame(t: TraceImpl, labels: seq<string>): Frame
  {
    TraceStreams.Labels(Encode(Some(t.id)), Encode(Some(t.rootId)), labels)
  }

  function EndFrame(t: TraceImpl, now: Long): Frame
  {
    TraceStreams.End(Encode(Some(t.id)), Encode(Some(t.rootId)), now)
  }

  /** `newId` is fresh for the client that would use it. */
  ghost predicate FreshForTrace(t: Trace, newId: Uuid)
    reads TraceObjects(t)
  {
    t.Standard? ==> newId !in t.impl.client.issued
  }

  ghost predicate FreshForAnalysis(a: Analysis, newId: Uuid)
    reads AnalysisObjects(a)
  {
    a.StandardAnalysis? ==> newId !in a.impl.client.issued
  }

  ghost predicate FreshForClient(c: Client, newId: Uuid)
    reads ClientObjects(c)
  {
    c.StandardTracing? ==> newId !in c.client.issued
  }

  /** A standard trace sits correctly in its tree. */
  ghost predicate Linked(t: Trace)
  {
    t.Standard? ==> t.impl.WellFormed()
  }

  /** `getId`: null for the no-op trace. */
  function IdOf(t: Trace): (r: Option<Uuid>)
    ensures r.None? <==> t.NoOpTrace?
  {
    if t.Standard? then Some(t.impl.GetId()) else None
  }

  /** `getRootId`: null for the no-op trace; for a standard trace the id
      of its tree's root, which is its own id when it is a root. */
  function RootIdOf(t: Trace): (r: Option<Uuid>)
    requires Linked(t)
    ensures r.None? <==> t.NoOpTrace?
    ensures t.Standard? ==> r.value == TreeRoot(t.impl)
    ensures t.Standard? && t.impl.origin.Root? ==> r == IdOf(t)
  {
    if t.Standard? then Some(t.impl.GetRootId()) else None
  }

  /** `Trace.trace(name)`: a child of `t`, or the no-op trace again. */
  method ChildOf(t: Trace, name: Option<string>, newId: Uuid, now: Long) returns (r: Result<Trace, Failure>)
    requires Linked(t) && FreshForTrace(t, newId)
    modifies TraceObjects(t)
    ensures Finished(t) == old(Finished(t))
    ensures t.NoOpTrace? ==> r == Success(NoOpTrace)
    ensures t.Standard? && name.None? ==>
      r == Failure(NullPointer("Cannot use null name")) && SentBy(t) == old(SentBy(t)) && ErrorsOf(t) == old(ErrorsOf(t))
    ensures t.Standard? && name.Some? ==>
      && t.impl.client.issued == old(t.impl.client.issued) + {newId}
      && SendStep(old(SentBy(t)), old(t.impl.client.stream.finished), old(t.impl.client.stream.errors),
                  SentBy(t), t.impl.client.stream.errors,
                  ChildFrame(t.impl, newId, name.value, now), OutcomeOf(r))
    ensures t.Standard? ==> (r.Success? <==> name.Some? && !old(Finished(t)))
    ensures r.Success? && t.Standard? ==>
      && r.value.Standard? && fresh(r.value.impl) && Linked(r.value)
      && r.value.impl.id == newId && r.value.impl.rootId == t.impl.rootId
      && r.value.impl.origin == Tracing.ChildOf(t.impl) && r.value.impl.client == t.impl.client
  {
    if t.NoOpTrace? {
      return Success(NoOpTrace);
    }
    var c := t.impl.Trace(name, newId, now);
    r := if c.Success? then Success(Standard(c.value)) else Failure(c.error);
  }

  /** `Trace.data(data)`: returns the same trace. */
  method Data(t: Trace, data: Option<string>) returns (r: Result<Trace, Failure>)
    modifies TraceObjects(t)
    ensures Finished(t) == old(Finished(t))
    ensures t.NoOpTrace? ==> r == Success(NoOpTrace)
    ensures t.Standard? && data.None? ==>
      r == Failure(NullPointer("Cannot use null data")) && SentBy(t) == old(SentBy(t)) && ErrorsOf(t) == old(ErrorsOf(t))
    ensures t.Standard? && data.Some? ==>
      SendStep(old(SentBy(t)), old(t.impl.client.stream.finished), old(t.impl.client.stream.errors),
               SentBy(t), t.impl.client.stream.errors,
               DataFrame(t.impl, data.value), OutcomeOf(r))
    ensures t.Standard? ==> (r.Success? <==> data.Some? && !old(Finished(t)))
    ensures r.Success? ==> r.value == t
  {
    if t.NoOpTrace? {
      return Success(NoOpTrace);
    }
    var d := t.impl.Data(data);
    r := if d.Success? then Success(t) else Failure(d.error);
  }

  /** `Trace.labels(labels...)`: returns the same trace. */
  method Labels(t: Trace, labels: seq<string>) returns (r: Result<Trace, Failure>)
    modifies TraceObjects(t)
    ensures Finished(t) == old(Finished(t))
    ensures t.NoOpTrace? ==> r == Success(NoOpTrace)
    ensures t.Standard? ==>
      SendStep(old(SentBy(t)), old(t.impl.client.stream.finished), old(t.impl.client.stream.errors),
               SentBy(t), t.impl.client.stream.errors,
               LabelsFrame(t.impl, labels), OutcomeOf(r))
    ensures r.Success? <==> !old(Finished(t))
    ensures r.Success? ==> r.value == t
  {
    if t.NoOpTrace? {
      return Success(NoOpTrace);
    }
    var d := t.impl.Labels(labels);
    r := if d.Success? then Success(t) else Failure(d.error);
  }

  /** `Trace.end()`: returns the same trace. */
  method End(t: Trace, now: Long) returns (r: Result<Trace, Failure>)
    modifies TraceObjects(t)
    ensures Finished(t) == old(Finished(t))
    ensures t.NoOpTrace? ==> r == Success(NoOpTrace)
    ensures t.Standard? ==>
      SendStep(old(SentBy(t)), old(t.impl.client.stream.finished), old(t.impl.client.stream.errors),
               SentBy(t), t.impl.client.stream.errors,
               EndFrame(t.impl, now), OutcomeOf(r))
    ensures r.Success? <==> !old(Finished(t))
    ensures r.Success? ==> r.value == t
    ensures r.Failure? ==> r.error.StreamError?
  {
    if t.NoOpTrace? {
      return Success(NoOpTrace);
    }
    var d := t.impl.End(now);
    r := if d.Success? then Success(t) else Failure(d.error);
  }

  /** `Analysis.trace(name, tracker, iteration)`: a new root trace, or the
      no-op trace. */
  method RootOf(a: Analysis, name: Option<string>, tracker: Option<string>, iteration: Int32,
                newId: Uuid, now: Long) returns (r: Result<Trace, Failure>)
    requires FreshForAnalysis(a, newId)
    modifies AnalysisObjects(a)
    ensures AnalysisFinished(a) == old(AnalysisFinished(a))
    ensures a.NoOpAnalysis? ==> r == Success(NoOpTrace)
    ensures a.StandardAnalysis? && name.Some? && tracker.Some? ==>
      && a.impl.client.issued == old(a.impl.client.issued) + {newId}
      && SendStep(old(a.impl.client.stream.sent), old(a.impl.client.stream.finished),
                  old(a.impl.client.stream.errors), a.impl.client.stream.sent, a.impl.client.stream.errors,
                  RootFrame(a.impl, newId, tracker.value, iteration, name.value, now), OutcomeOf(r))
    ensures a.StandardAnalysis? ==> (r.Success? <==> name.Some? && tracker.Some? && !old(AnalysisFinished(a)))
    ensures a.StandardAnalysis? && name.None? ==> r == Failure(NullPointer("Cannot use null name"))
    ensures a.StandardAnalysis? && name.Some? && tracker.None? ==> r == Failure(NullPointer("Cannot use null tracker"))
    ensures a.StandardAnalysis? && (name.None? || tracker.None?) ==>
      && a.impl.client.stream.sent == old(a.impl.client.stream.sent)
      && a.impl.client.stream.errors == old(a.impl.client.stream.errors)
    ensures r.Success? && a.StandardAnalysis? ==>
      && r.value.Standard? && fresh(r.value.impl) && Linked(r.value)
      && r.value.impl.id == newId && r.value.impl.rootId == newId && r.value.impl.origin == Root
      && r.value.impl.client == a.impl.client
  {
    if a.NoOpAnalysis? {
      return Success(NoOpTrace);
    }
    var c := a.impl.Trace(name, tracker, iteration, newId, now);
    r := if c.Success? then Success(Standard(c.value)) else Failure(c.error);
  }

  /** `GrablTracing.trace(rootId, parentId, name)`: a continued trace, or
      the no-op trace. */
  method Continue(c: Client, rootId: Option<Uuid>, parentId: Option<Uuid>, name: Option<string>,
                  newId: Uuid, now: Long) returns (r: Result<Trace, Failure>)
    requires FreshForClient(c, newId)
    modifies ClientObjects(c)
    ensures c.StandardTracing? ==> c.client.stream.finished == old(c.client.stream.finished)
    ensures c.NoOpClient? ==> r == Success(NoOpTrace)
    ensures c.StandardTracing? && (rootId.None? || parentId.None? || name.None?) ==>
      r.Failure? && r.error.NullPointer? && c.client.stream.sent == old(c.client.stream.sent)
    ensures c.StandardTracing? && rootId.Some? && parentId.Some? && name.Some? ==>
      && c.client.issued == old(c.client.issued) + {newId}
      && SendStep(old(c.client.stream.sent), old(c.client.stream.finished), old(c.client.stream.errors),
               c.client.stream.sent, c.client.stream.errors,
               ChildStart(Encode(Some(newId)), Encode(rootId), Encode(parentId), name.value, now),
               OutcomeOf(r))
    ensures c.StandardTracing? ==>
      (r.Success? <==> rootId.Some? && parentId.Some? && name.Some? && !old(c.client.stream.finished))
    ensures r.Success? && c.StandardTracing? ==>
      && r.value.Standard? && fresh(r.value.impl) && Linked(r.value)
      && r.value.impl.id == newId && r.value.impl.rootId == rootId.value
      && r.value.impl.client == c.client
  {
    if c.NoOpClient? {
      return Success(NoOpTrace);
    }
    var t := c.client.Trace(rootId, parentId, name, newId, now);
    r := if t.Success? then Success(Standard(t.value)) else Failure(t.error);
  }

  /** `GrablTracing.analysis(...)`, the four-argument form with a `long`
      analysis id: the no-op client answers the no-op analysis. */
  method OpenAnalysis(c: Client, owner: Option<string>, repo: Option<string>, commit: Option<string>,
                      analysisName: Option<string>, created: Long) returns (r: Result<Analysis, Failure>)
    ensures c.NoOpClient? ==> r == Success(NoOpAnalysis)
    ensures c.StandardTracing? ==>
      (r.Success? <==> owner.Some? && repo.Some? && commit.Some? && analysisName.Some?)
    ensures c.StandardTracing? && r.Success? ==>
      r.value.StandardAnalysis? && r.value.impl.client == c.client && r.value.impl.analysisId == LongId(created)
    ensures r.Failure? ==> r.error.NullPointer?
  {
    if c.NoOpClient? {
      return Success(NoOpAnalysis);
    }
    var a := c.client.Analysis(owner, repo, commit, analysisName, created);
    r := if a.Success? then Success(StandardAnalysis(a.value)) else Failure(a.error);
  }

  /** `GrablTracing.analysis(owner, repo, commit)`, the three-argument form
      whose analysis id is a UUID decoded from the create call's answer. */
  method OpenUuidAnalysis(c: Client, owner: Option<string>, repo: Option<string>, commit: Option<string>,
                          created: Option<seq<byte>>) returns (r: Result<Analysis, Failure>)
    ensures c.NoOpClient? ==> r == Success(NoOpAnalysis)
    ensures c.StandardTracing? && owner.Some? && repo.Some? && commit.Some? && Decode(created).Success? ==>
      r.Success? && r.value.StandardAnalysis? && r.value.impl.client == c.client &&
      r.value.impl.analysisId == UuidId(Decode(created).value)
    ensures c.StandardTracing? && (owner.None? || repo.None? || commit.None?) ==>
      r.Failure? && r.error.NullPointer?
    ensures c.StandardTracing? && owner.Some? && repo.Some? && commit.Some? && Decode(created).Failure? ==>
      r == Failure(IdOverflow)
  {
    if c.NoOpClient? {
      return Success(NoOpAnalysis);
    }
    var a := c.client.UuidAnalysis(owner, repo, commit, created);
    r := if a.Success? then Success(StandardAnalysis(a.value)) else Failure(a.error);
  }

  /** `GrablTracing.close()`: nothing for the no-op client. */
  method Close(c: Client, reply: Reply) returns (r: Outcome)
    modifies ClientObjects(c)
    ensures c.NoOpClient? ==> r == Normal
    ensures c.StandardTracing? ==>
      && c.client.stream.outboundCompleted
      && c.client.stream.sent == old(c.client.stream.sent) && c.client.stream.errors == []
      && c.client.stream.finished == (old(c.client.stream.finished) || !reply.TimedOut?)
      && c.client.issued == old(c.client.issued)
    ensures c.StandardTracing? ==>
      r == Aggregate(if !old(c.client.stream.finished) && reply.Errored?
                     then old(c.client.stream.errors) + [reply.error] else old(c.client.stream.errors))
  {
    if c.NoOpClient? {
      return Normal;
    }
    r := c.client.Close(reply);
  }

  /** Once a client is closed with the backend's acknowledgement, the
      latch is down: a later call that sends throws "Connection Lost" and
      the frame never leaves. */
  method SendAfterCloseFails(rootId: Uuid, parentId: Uuid, name: string, newId: Uuid, now: Long)
    returns (closed: Outcome, r: Result<Trace, Failure>, sent: seq<Frame>)
    ensures closed == Normal
    ensures r == Failure(StreamError(Raised(ConnectionLost, [])))
    ensures sent == []
  {
    var c := new StandardClient();
    closed := Close(StandardTracing(c), Acknowledged);
    r := Continue(StandardTracing(c), Some(rootId), Some(parentId), Some(name), newId, now);
    sent := c.stream.sent;
  }

  /** Every call on the no-op client, its analysis and its trace answers
      the same singletons, reports null ids and never throws. */
  method NoOpIsInert(name: Option<string>, tracker: Option<string>, iteration: Int32, data: Option<string>,
                     labels: seq<string>, rootId: Option<Uuid>, parentId: Option<Uuid>, newId: Uuid, now: Long,
                     reply: Reply)
    returns (traces: seq<Result<Trace, Failure>>, analysis: Result<Analysis, Failure>, ids: seq<Option<Uuid>>,
             close: Outcome)
    ensures analysis == Success(NoOpAnalysis)
    ensures traces == [Success(NoOpTrace), Success(NoOpTrace), Success(NoOpTrace), Success(NoOpTrace),
                       Success(NoOpTrace), Success(NoOpTrace)]
    ensures ids == [None, None]
    ensures close == Normal
  {
    var c := CreateNoOp();
    analysis := OpenUuidAnalysis(c, None, None, None, None);
    var root := RootOf(NoOpAnalysis, name, tracker, iteration, newId, now);
    var cont := Continue(c, rootId, parentId, name, newId, now);
    var child := ChildOf(NoOpTrace, name, newId, now);
    var d := Data(NoOpTrace, data);
    var l := Labels(NoOpTrace, labels);
    var e := End(NoOpTrace, now);
    traces := [root, cont, child, d, l, e];
    ids := [IdOf(NoOpTrace), RootIdOf(NoOpTrace)];
    close := Close(c, reply);
  }
}
