/** `client/GrablTracingThreadStatic.java`: the same process-wide
    thread-contextual layer over a `GrablTracing` client, whose analysis id
    is a UUID. Its `traceOnThread` differs: it looks only at whether the
    analysis was opened, and with a trace neither stacked nor startable
    from a context it throws instead of answering the no-op trace. */
module GrablThreadStatic {
  import opened Wrappers
  import opened UuidCodec
  import opened TraceStreams
  import opened Tracing
  import opened TracingApi
  import opened ThreadStacks
  import FactoryThreadStatic

  const ClientTwice := "Tried to set global Grabl tracing client twice"
  const NoClient := "Tried to open analysis without setting a global tracing client"
  const AnalysisTwice := "Tried to open global analysis twice"
  const NoContext := "No context found: must be in a ThreadContext"

  /** The decision rule of `traceOnThread`, checked in this order: no
      analysis; a trace on the stack; no context. Before the analysis is
      opened the answer is the no-op trace however deep the stacks are;
      afterwards it is never the no-op trace, and it throws exactly when
      nothing is stacked and there is no context. */
  function TraceRoute(analysisSet: bool, stacked: bool, context: bool): (r: Route)
    ensures r.Refused? ==> r.message == NoContext
    ensures r == NoOpRoute <==> !analysisSet
    ensures r.Refused? <==> analysisSet && !stacked && !context
  {
    if !analysisSet then NoOpRoute
    else if stacked then ChildRoute
    else if !context then Refused(NoContext)
    else RootRoute
  }

  /** Where the Grabl and the Factory rules part, for an enabled layer:
      with no analysis and a stacked trace, the Factory rule extends the
      trace and the Grabl rule answers the no-op trace; with an analysis,
      nothing stacked and no context, the Factory rule answers the no-op
      trace and the Grabl rule throws. Everywhere else they agree. */
  lemma DiffersFromFactory(analysisSet: bool, stacked: bool, context: bool)
    ensures !analysisSet && stacked ==>
      FactoryThreadStatic.TraceRoute(true, stacked, analysisSet, context) == ChildRoute &&
      TraceRoute(analysisSet, stacked, context) == NoOpRoute
    ensures analysisSet && !stacked && !context ==>
      FactoryThreadStatic.TraceRoute(true, stacked, analysisSet, context) == NoOpRoute &&
      TraceRoute(analysisSet, stacked, context) == Refused(NoContext)
    ensures !(!analysisSet && stacked) && !(analysisSet && !stacked && !context) ==>
      FactoryThreadStatic.TraceRoute(true, stacked, analysisSet, context) == TraceRoute(analysisSet, stacked, context)
  {
  }

  class GrablTracingThreadStatic {
    var enabled: bool
    var analysisSet: bool
    var singletonClient: Option<Client>
    var singletonAnalysis: Option<Analysis>
    const contextStack: ThreadStack<ContextImpl>
    const traceStack: ThreadStack<ThreadTraceImpl>

    /** The flags track the singletons: enabled exactly when a client is
        set; an analysis only after its flag was raised, and that only
        once enabled. Every stacked item belongs to its stack. */
    ghost predicate Valid()
      reads this, contextStack, traceStack
    {
      && (enabled <==> singletonClient.Some?)
      && (singletonAnalysis.Some? ==> analysisSet)
      && (analysisSet ==> enabled)
      && TracesBelong(traceStack) && ContextsBelong(contextStack)
    }

    constructor ()
      ensures !enabled && !analysisSet && singletonClient.None? && singletonAnalysis.None?
      ensures fresh(contextStack) && fresh(traceStack)
      ensures contextStack.Items() == [] && traceStack.Items() == []
      ensures Valid()
    {
      enabled := false;
      analysisSet := false;
      singletonClient := None;
      singletonAnalysis := None;
      contextStack := new ThreadStack<ContextImpl>();
      traceStack := new ThreadStack<ThreadTraceImpl>();
    }

    function SingletonObjects(): set<object>
      reads this
    {
      (if singletonAnalysis.Some? then AnalysisObjects(singletonAnalysis.value) else {}) +
      (if singletonClient.Some? then ClientObjects(singletonClient.value) else {})
    }

    /** `newId` is fresh for every client a new trace might use. */
    ghost predicate FreshId(newId: Uuid)
      reads this, traceStack, TopObjects(traceStack), SingletonObjects()
    {
      && FreshForTop(traceStack, newId)
      && (singletonAnalysis.Some? ==> FreshForAnalysis(singletonAnalysis.value, newId))
      && (singletonClient.Some? ==> FreshForClient(singletonClient.value, newId))
    }

    /** `setGlobalTracingClient`: one-shot; a second call throws and keeps
        the first client. */
    method SetGlobalTracingClient(client: Client) returns (r: Result<(), ThreadError>)
      modifies this
      ensures old(enabled) ==> r == Failure(IllegalState(ClientTwice)) && singletonClient == old(singletonClient)
      ensures !old(enabled) ==> r.Success? && singletonClient == Some(client)
      ensures enabled
      ensures analysisSet == old(analysisSet) && singletonAnalysis == old(singletonAnalysis)
      ensures old(Valid()) ==> Valid()
    {
      if enabled {
        return Failure(IllegalState(ClientTwice));
      }
      enabled := true;
      singletonClient := Some(client);
      r := Success(());
    }

    /** `openGlobalAnalysis(owner, repo, commit)`: needs a client and is
        one-shot; the flag is raised before the analysis is asked for.
        `created` is what the backend's create call answered, decoded to
        the analysis id. */
    method OpenGlobalAnalysis(owner: Option<string>, repo: Option<string>, commit: Option<string>,
                              created: Option<seq<byte>>) returns (r: Result<(), ThreadError>)
      modifies this
      ensures !old(enabled) ==> r == Failure(IllegalState(NoClient)) && analysisSet == old(analysisSet)
      ensures old(enabled) && old(analysisSet) ==> r == Failure(IllegalState(AnalysisTwice))
      ensures old(enabled) ==> analysisSet
      ensures r.Failure? ==> singletonAnalysis == old(singletonAnalysis)
      ensures r.Success? ==> old(enabled) && !old(analysisSet) && singletonAnalysis.Some?
      ensures old(enabled) && !old(analysisSet) && old(singletonClient) == Some(NoOpClient) ==>
        r.Success? && singletonAnalysis == Some(NoOpAnalysis)
      ensures old(enabled) && !old(analysisSet) && old(singletonClient).Some? && old(singletonClient).value.StandardTracing? ==>
        if owner.None? || repo.None? || commit.None? then
          r.Failure? && r.error.TraceFailure? && r.error.failure.NullPointer?
        else if Decode(created).Failure? then r == Failure(TraceFailure(IdOverflow))
        else
          && r.Success? && singletonAnalysis.value.StandardAnalysis?
          && singletonAnalysis.value.impl.client == old(singletonClient).value.client
          && singletonAnalysis.value.impl.analysisId == UuidId(Decode(created).value)
      ensures enabled == old(enabled) && singletonClient == old(singletonClient)
      ensures old(Valid()) ==> Valid()
    {
      if !enabled {
        return Failure(IllegalState(NoClient));
      }
      if analysisSet {
        return Failure(IllegalState(AnalysisTwice));
      }
      analysisSet := true;
      if singletonClient.None? {
        return Failure(NullReference);
      }
      var a := OpenUuidAnalysis(singletonClient.value, owner, repo, commit, created);
      if a.Failure? {
        return Failure(TraceFailure(a.error));
      }
      singletonAnalysis := Some(a.value);
      r := Success(());
    }

    /** `traceOnThread(name)`, following `TraceRoute`. A root takes the top
        context's tracker and iteration. */
    method TraceOnThread(name: Option<string>, newId: Uuid, now: Long) returns (r: Result<ThreadTrace, ThreadError>)
      requires Valid() && FreshId(newId)
      modifies traceStack, TopObjects(traceStack), SingletonObjects()
      ensures Valid()
      ensures TraceRoute(old(analysisSet), old(traceStack.Items()) != [], old(contextStack.Items()) != []) == NoOpRoute ==>
        && r == Success(NoOpThreadTrace)
        && unchanged(traceStack) && unchanged(TopObjects(traceStack)) && unchanged(SingletonObjects())
      ensures TraceRoute(old(analysisSet), old(traceStack.Items()) != [], old(contextStack.Items()) != []) == ChildRoute ==>
        && PushedChild(traceStack, old(traceStack.Items())[0], r, name, newId, now)
        && unchanged(SingletonObjects() - old(TopObjects(traceStack)))
      ensures TraceRoute(old(analysisSet), old(traceStack.Items()) != [], old(contextStack.Items()) != []) == Refused(NoContext) ==>
        && r == Failure(IllegalState(NoContext))
        && unchanged(traceStack) && unchanged(SingletonObjects())
      ensures TraceRoute(old(analysisSet), old(traceStack.Items()) != [], old(contextStack.Items()) != []) == RootRoute ==>
        if old(singletonAnalysis).None? then
          r == Failure(NullReference) && traceStack.Items() == old(traceStack.Items()) && unchanged(SingletonObjects())
        else PushedRoot(traceStack, r, old(singletonAnalysis).value, old(contextStack.Items())[0], name, newId, now)
    {
      if !analysisSet {
        return Success(NoOpThreadTrace);
      }
      var stacked := traceStack.Peek();
      if stacked.Some? {
        var c := stacked.value.TraceOnThread(name, newId, now);
        r := if c.Success? then Success(Pushed(c.value)) else Failure(c.error);
        return;
      }
      var context := contextStack.Peek();
      if context.None? {
        return Failure(IllegalState(NoContext));
      }
      if singletonAnalysis.None? {
        return Failure(NullReference);
      }
      var root := RootOf(singletonAnalysis.value, name, context.value.tracker, context.value.iteration, newId, now);
      if root.Failure? {
        return Failure(TraceFailure(root.error));
      }
      var t := new ThreadTraceImpl(root.value, traceStack);
      r := Success(Pushed(t));
    }

    /** `continueTraceOnThread(rootId, parentId, name)`: when enabled,
        continue a tree begun elsewhere through the global client and
        push it, whatever the stacks hold. */
    method ContinueTraceOnThread(rootId: Option<Uuid>, parentId: Option<Uuid>, name: Option<string>,
                                 newId: Uuid, now: Long) returns (r: Result<ThreadTrace, ThreadError>)
      requires Valid() && FreshId(newId)
      modifies traceStack, SingletonObjects()
      ensures Valid()
      ensures !old(enabled) ==> r == Success(NoOpThreadTrace) && traceStack.Items() == old(traceStack.Items())
      ensures r.Success? && old(enabled) ==>
        && r.value.Pushed? && fresh(r.value.impl) && traceStack.Items() == [r.value.impl] + old(traceStack.Items())
        && (singletonClient.value.NoOpClient? ==> r.value.impl.inner == NoOpTrace)
        && (singletonClient.value.StandardTracing? ==>
              && r.value.impl.inner.Standard? && r.value.impl.inner.impl.id == newId
              && rootId.Some? && r.value.impl.inner.impl.rootId == rootId.value
              && r.value.impl.inner.impl.client == singletonClient.value.client)
      ensures r.Failure? ==> traceStack.Items() == old(traceStack.Items())
      ensures old(enabled) && singletonClient.value.StandardTracing? ==>
        && singletonClient.value.client.stream.finished == old(singletonClient.value.client.stream.finished)
        && (rootId.None? || parentId.None? || name.None? ==>
              && r.Failure? && r.error.TraceFailure? && r.error.failure.NullPointer?
              && singletonClient.value.client.stream.sent == old(singletonClient.value.client.stream.sent))
        && (rootId.Some? && parentId.Some? && name.Some? ==>
              && singletonClient.value.client.issued == old(singletonClient.value.client.issued) + {newId}
              && SendStep(old(singletonClient.value.client.stream.sent),
                          old(singletonClient.value.client.stream.finished),
                          old(singletonClient.value.client.stream.errors),
                          singletonClient.value.client.stream.sent, singletonClient.value.client.stream.errors,
                          ChildStart(Encode(Some(newId)), Encode(rootId), Encode(parentId), name.value, now),
                          ThreadOutcomeOf(r)))
      ensures old(enabled) ==>
        (r.Success? <==> singletonClient.value.NoOpClient? ||
                         (rootId.Some? && parentId.Some? && name.Some? && !old(singletonClient.value.client.stream.finished)))
    {
      if !enabled {
        return Success(NoOpThreadTrace);
      }
      var c := Continue(singletonClient.value, rootId, parentId, name, newId, now);
      if c.Failure? {
        return Failure(TraceFailure(c.error));
      }
      var t := new ThreadTraceImpl(c.value, traceStack);
      r := Success(Pushed(t));
    }

    /** `currentThreadTrace`: the no-op thread trace when disabled, else
        the top of the trace stack, null when it is empty. */
    function CurrentThreadTrace(): (r: Option<ThreadTrace>)
      reads this, traceStack
      ensures !enabled ==> r == Some(NoOpThreadTrace)
      ensures enabled ==> (r.None? <==> traceStack.Items() == [])
      ensures enabled && r.Some? ==> r.value == Pushed(traceStack.Items()[0])
    {
      if !enabled then Some(NoOpThreadTrace)
      else
        var top := traceStack.Peek();
        if top.None? then None else Some(Pushed(top.value))
    }

    /** `contextOnThread(tracker, iteration)`: when enabled, exactly one new
        context on top of the context stack; otherwise the no-op context
        and an untouched stack. */
    method ContextOnThread(tracker: Option<string>, iteration: Int32) returns (r: ThreadContext)
      requires Valid()
      modifies contextStack
      ensures Valid()
      ensures enabled ==>
        && r.ContextOf? && fresh(r.impl) && r.impl.tracker == tracker && r.impl.iteration == iteration
        && contextStack.Items() == [r.impl] + old(contextStack.Items())
      ensures !enabled ==> r == NoOpContext && contextStack.Items() == old(contextStack.Items())
    {
      if enabled {
        var c := new ContextImpl(tracker, iteration, contextStack);
        r := ContextOf(c);
      } else {
        r := NoOpContext;
      }
    }

    /** `isTracingEnabled`: true exactly when a global client was set. */
    function IsTracingEnabled(): (r: bool)
      requires Valid()
      reads this, contextStack, traceStack
      ensures r <==> singletonClient.Some?
    {
      enabled
    }
  }

  /** With a standard client and an opened analysis but no context,
      `traceOnThread` throws "No context found" and sends nothing. */
  method NoContextThrows(name: Option<string>, analysisId: Uuid, newId: Uuid, now: Long)
    returns (trace: Result<ThreadTrace, ThreadError>, frames: seq<Frame>)
    ensures trace == Failure(IllegalState(NoContext)) && frames == []
  {
    var client := new StandardClient();
    var g := new GrablTracingThreadStatic();
    var _ := g.SetGlobalTracingClient(StandardTracing(client));
    RoundTrip(analysisId);
    var _ := g.OpenGlobalAnalysis(Some("owner"), Some("repo"), Some("commit"), Some(Encode(Some(analysisId))));
    trace := g.TraceOnThread(name, newId, now);
    frames := client.stream.sent;
  }

  /** Before the analysis is opened, even an enabled layer with a context
      on the stack answers the no-op thread trace. */
  method NoAnalysisIsNoOp(tracker: Option<string>, name: Option<string>, newId: Uuid, now: Long)
    returns (trace: Result<ThreadTrace, ThreadError>, depth: nat, frames: seq<Frame>)
    ensures trace == Success(NoOpThreadTrace) && depth == 0 && frames == []
  {
    var client := new StandardClient();
    var g := new GrablTracingThreadStatic();
    var _ := g.SetGlobalTracingClient(StandardTracing(client));
    var _ := g.ContextOnThread(tracker, 1);
    trace := g.TraceOnThread(name, newId, now);
    depth := |g.traceStack.Items()|;
    frames := client.stream.sent;
  }
}
