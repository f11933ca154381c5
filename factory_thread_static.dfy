/** `client/FactoryTracingThreadStatic.java`: process-wide thread-contextual
    tracing over one global client and one global analysis. The class's
    static fields become the fields of one object, so a fresh object is a
    freshly loaded class. Until a client is set the layer is disabled and
    answers the no-op thread trace; with no analysis or no context it also
    degrades to the no-op thread trace instead of throwing. */
module FactoryThreadStatic {
  import opened Wrappers
  import opened UuidCodec
  import opened TraceStreams
  import opened Tracing
  import opened TracingApi
  import opened ThreadStacks

  const ClientTwice := "Tried to set global Vaticle Factory tracing client twice"
  const NoClient := "Tried to open analysis without setting a global tracing client"
  const AnalysisTwice := "Tried to open global analysis twice"

  /** The decision rule of `traceOnThread`, checked in this order: tracing
      disabled; a trace on the stack; no analysis; no context. It never
      throws. Once enabled, a stacked trace is always extended, whatever
      the analysis and context stacks hold; a root is started exactly when
      nothing is stacked and both an analysis and a context are there. */
  function TraceRoute(enabled: bool, stacked: bool, analysisSet: bool, context: bool): (r: Route)
    ensures !r.Refused?
    ensures enabled && stacked ==> r == ChildRoute
    ensures r == RootRoute <==> enabled && !stacked && analysisSet && context
    ensures r == NoOpRoute <==> !enabled || (!stacked && (!analysisSet || !context))
  {
    if !enabled then NoOpRoute
    else if stacked then ChildRoute
    else if !analysisSet || !context then NoOpRoute
    else RootRoute
  }

  class FactoryTracingThreadStatic {
    var enabled: bool
    var analysisSet: bool
    var singletonClient: Option<Client>
    var singletonAnalysis: Option<Analysis>
    const contextStack: ThreadStack<ContextImpl>
    const traceStack: ThreadStack<ThreadTraceImpl>

    /** The flags track the singletons: enabled exactly when a client is
        set; an analysis only after its flag was raised. Every stacked
        item belongs to its stack. */
    ghost predicate Valid()
      reads this, contextStack, traceStack
    {
      && (enabled <==> singletonClient.Some?)
      && (singletonAnalysis.Some? ==> analysisSet)
      && (analysisSet ==> enabled)
      && TracesBelong(traceStack) && ContextsBelong(contextStack)
    }

    constructor ()
      ensures !enabled && !analysisSet && singletonClient.None? && singletonAnalysis.None?
      ensures fresh(contextStack) && fresh(traceStack)
      ensures contextStack.Items() == [] && traceStack.Items() == []
      ensures Valid()
    {
      enabled := false;
      analysisSet := false;
      singletonClient := None;
      singletonAnalysis := None;
      contextStack := new ThreadStack<ContextImpl>();
      traceStack := new ThreadStack<ThreadTraceImpl>();
    }

    /** What a root or continued trace may change: the global analysis's
        and the global client's objects. */
    function SingletonObjects(): set<object>
      reads this
    {
      (if singletonAnalysis.Some? then AnalysisObjects(singletonAnalysis.value) else {}) +
      (if singletonClient.Some? then ClientObjects(singletonClient.value) else {})
    }

    /** `newId` is fresh for every client a new trace might use. */
    ghost predicate FreshId(newId: Uuid)
      reads this, traceStack, TopObjects(traceStack), SingletonObjects()
    {
      && FreshForTop(traceStack, newId)
      && (singletonAnalysis.Some? ==> FreshForAnalysis(singletonAnalysis.value, newId))
      && (singletonClient.Some? ==> FreshForClient(singletonClient.value, newId))
    }

    /** `setGlobalTracingClient`: one-shot; a second call throws and keeps
        the first client. */
    method SetGlobalTracingClient(client: Client) returns (r: Result<(), ThreadError>)
      modifies this
      ensures old(enabled) ==> r == Failure(IllegalState(ClientTwice)) && singletonClient == old(singletonClient)
      ensures !old(enabled) ==> r.Success? && singletonClient == Some(client)
      ensures enabled
      ensures analysisSet == old(analysisSet) && singletonAnalysis == old(singletonAnalysis)
      ensures old(Valid()) ==> Valid()
    {
      if enabled {
        return Failure(IllegalState(ClientTwice));
      }
      enabled := true;
      singletonClient := Some(client);
      r := Success(());
    }

    /** `openGlobalAnalysis`: needs a client and is one-shot. The flag is
        raised before the analysis is asked for, so when the client's
        `analysis` throws the flag stays raised with no analysis behind
        it. `created` is the id the backend's create call answered. */
    method OpenGlobalAnalysis(owner: Option<string>, repo: Option<string>, commit: Option<string>,
                              analysisName: Option<string>, created: Long) returns (r: Result<(), ThreadError>)
      modifies this
      ensures !old(enabled) ==> r == Failure(IllegalState(NoClient)) && analysisSet == old(analysisSet)
      ensures old(enabled) && old(analysisSet) ==> r == Failure(IllegalState(AnalysisTwice))
      ensures old(enabled) ==> analysisSet
      ensures r.Failure? ==> singletonAnalysis == old(singletonAnalysis)
      ensures r.Success? <==>
        && old(enabled) && !old(analysisSet) && old(singletonClient).Some?
        && (old(singletonClient).value.NoOpClient? ||
            (owner.Some? && repo.Some? && commit.Some? && analysisName.Some?))
      ensures r.Success? && old(singletonClient).value.NoOpClient? ==> singletonAnalysis == Some(NoOpAnalysis)
      ensures r.Success? && old(singletonClient).value.StandardTracing? ==>
        && singletonAnalysis.Some? && singletonAnalysis.value.StandardAnalysis?
        && singletonAnalysis.value.impl.client == old(singletonClient).value.client
        && singletonAnalysis.value.impl.analysisId == LongId(created)
      ensures enabled == old(enabled) && singletonClient == old(singletonClient)
      ensures old(Valid()) ==> Valid()
    {
      if !enabled {
        return Failure(IllegalState(NoClient));
      }
      if analysisSet {
        return Failure(IllegalState(AnalysisTwice));
      }
      analysisSet := true;
      if singletonClient.None? {
        return Failure(NullReference);
      }
      var a := OpenAnalysis(singletonClient.value, owner, repo, commit, analysisName, created);
      if a.Failure? {
        return Failure(TraceFailure(a.error));
      }
      singletonAnalysis := Some(a.value);
      r := Success(());
    }

    /** `traceOnThread(name)`, following `TraceRoute`. A root takes the top
        context's tracker and iteration. A raised analysis flag with no
        analysis behind it makes the root branch throw a
        `NullPointerException`. */
    method TraceOnThread(name: Option<string>, newId: Uuid, now: Long) returns (r: Result<ThreadTrace, ThreadError>)
      requires Valid() && FreshId(newId)
      modifies traceStack, TopObjects(traceStack), SingletonObjects()
      ensures Valid()
      ensures TraceRoute(old(enabled), old(traceStack.Items()) != [], old(analysisSet), old(contextStack.Items()) != [])
              == NoOpRoute ==>
        && r == Success(NoOpThreadTrace)
        && unchanged(traceStack) && unchanged(TopObjects(traceStack)) && unchanged(SingletonObjects())
      ensures TraceRoute(old(enabled), old(traceStack.Items()) != [], old(analysisSet), old(contextStack.Items()) != [])
              == ChildRoute ==>
        && PushedChild(traceStack, old(traceStack.Items())[0], r, name, newId, now)
        && unchanged(SingletonObjects() - old(TopObjects(traceStack)))
      ensures TraceRoute(old(enabled), old(traceStack.Items()) != [], old(analysisSet), old(contextStack.Items()) != [])
              == RootRoute ==>
        if old(singletonAnalysis).None? then
          r == Failure(NullReference) && traceStack.Items() == old(traceStack.Items()) && unchanged(SingletonObjects())
        else PushedRoot(traceStack, r, old(singletonAnalysis).value, old(contextStack.Items())[0], name, newId, now)
    {
      if !enabled {
        return Success(NoOpThreadTrace);
      }
      var stacked := traceStack.Peek();
      if stacked.Some? {
        var c := stacked.value.TraceOnThread(name, newId, now);
        r := if c.Success? then Success(Pushed(c.value)) else Failure(c.error);
        return;
      }
      if !analysisSet {
        return Success(NoOpThreadTrace);
      }
      var context := contextStack.Peek();
      if context.None? {
        return Success(NoOpThreadTrace);
      }
      if singletonAnalysis.None? {
        return Failure(NullReference);
      }
      var root := RootOf(singletonAnalysis.value, name, context.value.tracker, context.value.iteration, newId, now);
      if root.Failure? {
        return Failure(TraceFailure(root.error));
      }
      var t := new ThreadTraceImpl(root.value, traceStack);
      r := Success(Pushed(t));
    }

    /** `continueTraceOnThread(rootId, parentId, name)`: when enabled,
        continue a tree begun elsewhere through the global client and
        push it, whatever the stacks hold. */
    method ContinueTraceOnThread(rootId: Option<Uuid>, parentId: Option<Uuid>, name: Option<string>,
                                 newId: Uuid, now: Long) returns (r: Result<ThreadTrace, ThreadError>)
      requires Valid() && FreshId(newId)
      modifies traceStack, SingletonObjects()
      ensures Valid()
      ensures !old(enabled) ==> r == Success(NoOpThreadTrace) && traceStack.Items() == old(traceStack.Items())
      ensures r.Success? && old(enabled) ==>
        && r.value.Pushed? && fresh(r.value.impl) && traceStack.Items() == [r.value.impl] + old(traceStack.Items())
        && (singletonClient.value.NoOpClient? ==> r.value.impl.inner == NoOpTrace)
        && (singletonClient.value.StandardTracing? ==>
              && r.value.impl.inner.Standard? && r.value.impl.inner.impl.id == newId
              && rootId.Some? && r.value.impl.inner.impl.rootId == rootId.value
              && r.value.impl.inner.impl.client == singletonClient.value.client)
      ensures r.Failure? ==> traceStack.Items() == old(traceStack.Items())
      ensures old(enabled) && singletonClient.value.StandardTracing? ==>
        && singletonClient.value.client.stream.finished == old(singletonClient.value.client.stream.finished)
        && (rootId.None? || parentId.None? || name.None? ==>
              && r.Failure? && r.error.TraceFailure? && r.error.failure.NullPointer?
              && singletonClient.value.client.stream.sent == old(singletonClient.value.client.stream.sent))
        && (rootId.Some? && parentId.Some? && name.Some? ==>
              && singletonClient.value.client.issued == old(singletonClient.value.client.issued) + {newId}
              && SendStep(old(singletonClient.value.client.stream.sent),
                          old(singletonClient.value.client.stream.finished),
                          old(singletonClient.value.client.stream.errors),
                          singletonClient.value.client.stream.sent, singletonClient.value.client.stream.errors,
                          ChildStart(Encode(Some(newId)), Encode(rootId), Encode(parentId), name.value, now),
                          ThreadOutcomeOf(r)))
      ensures old(enabled) ==>
        (r.Success? <==> singletonClient.value.NoOpClient? ||
                         (rootId.Some? && parentId.Some? && name.Some? && !old(singletonClient.value.client.stream.finished)))
    {
      if !enabled {
        return Success(NoOpThreadTrace);
      }
      var c := Continue(singletonClient.value, rootId, parentId, name, newId, now);
      if c.Failure? {
        return Failure(TraceFailure(c.error));
      }
      var t := new ThreadTraceImpl(c.value, traceStack);
      r := Success(Pushed(t));
    }

    /** `currentThreadTrace`: the no-op thread trace when disabled, else
        the top of the trace stack, null when it is empty. */
    function CurrentThreadTrace(): (r: Option<ThreadTrace>)
      reads this, traceStack
      ensures !enabled ==> r == Some(NoOpThreadTrace)
      ensures enabled ==> (r.None? <==> traceStack.Items() == [])
      ensures enabled && r.Some? ==> r.value == Pushed(traceStack.Items()[0])
    {
      if !enabled then Some(NoOpThreadTrace)
      else
        var top := traceStack.Peek();
        if top.None? then None else Some(Pushed(top.value))
    }

    /** `contextOnThread(tracker, iteration)`: when enabled, exactly one new
        context on top of the context stack; otherwise the no-op context
        and an untouched stack. */
    method ContextOnThread(tracker: Option<string>, iteration: Int32) returns (r: ThreadContext)
      requires Valid()
      modifies contextStack
      ensures Valid()
      ensures enabled ==>
        && r.ContextOf? && fresh(r.impl) && r.impl.tracker == tracker && r.impl.iteration == iteration
        && contextStack.Items() == [r.impl] + old(contextStack.Items())
      ensures !enabled ==> r == NoOpContext && contextStack.Items() == old(contextStack.Items())
    {
      if enabled {
        var c := new ContextImpl(tracker, iteration, contextStack);
        r := ContextOf(c);
      } else {
        r := NoOpContext;
      }
    }

    /** `isTracingEnabled`: true exactly when a global client was set. */
    function IsTracingEnabled(): (r: bool)
      requires Valid()
      reads this, contextStack, traceStack
      ensures r <==> singletonClient.Some?
    {
      enabled
    }
  }

  /** Nothing is traced before a client is set: `traceOnThread` answers the
      no-op thread trace and `contextOnThread` the no-op context, and
      neither stack grows. */
  method DisabledIsNoOp(name: Option<string>, tracker: Option<string>, iteration: Int32, newId: Uuid, now: Long)
    returns (trace: Result<ThreadTrace, ThreadError>, context: ThreadContext, depth: nat)
    ensures trace == Success(NoOpThreadTrace) && context == NoOpContext && depth == 0
  {
    var g := new FactoryTracingThreadStatic();
    context := g.ContextOnThread(tracker, iteration);
    trace := g.TraceOnThread(name, newId, now);
    depth := |g.traceStack.Items()| + |g.contextStack.Items()|;
  }

  /** The one-shot guards: a second client and a second analysis are
      refused, an analysis before a client is refused, and the first
      client stays. */
  method SingletonsAreOneShot(first: Client, second: Client, created: Long)
    returns (early: Result<(), ThreadError>, set1: Result<(), ThreadError>, set2: Result<(), ThreadError>,
             open1: Result<(), ThreadError>, open2: Result<(), ThreadError>, kept: Option<Client>)
    ensures early == Failure(IllegalState(NoClient))
    ensures set1.Success? && set2 == Failure(IllegalState(ClientTwice)) && kept == Some(first)
    ensures open2 == Failure(IllegalState(AnalysisTwice))
    ensures first.NoOpClient? ==> open1.Success?
  {
    var g := new FactoryTracingThreadStatic();
    early := g.OpenGlobalAnalysis(Some("owner"), Some("repo"), Some("commit"), Some("analysis"), created);
    set1 := g.SetGlobalTracingClient(first);
    set2 := g.SetGlobalTracingClient(second);
    kept := g.singletonClient;
    open1 := g.OpenGlobalAnalysis(Some("owner"), Some("repo"), Some("commit"), Some("analysis"), created);
    open2 := g.OpenGlobalAnalysis(Some("owner"), Some("repo"), Some("commit"), Some("analysis"), created);
  }

  /** With a standard client and an analysis but no context, the Factory
      layer degrades to the no-op thread trace rather than throwing, and
      sends nothing. */
  method NoContextIsNoOp(name: Option<string>, created: Long, newId: Uuid, now: Long)
    returns (trace: Result<ThreadTrace, ThreadError>, frames: seq<Frame>)
    ensures trace == Success(NoOpThreadTrace) && frames == []
  {
    var client := new StandardClient();
    var g := new FactoryTracingThreadStatic();
    var _ := g.SetGlobalTracingClient(StandardTracing(client));
    var _ := g.OpenGlobalAnalysis(Some("owner"), Some("repo"), Some("commit"), Some("analysis"), created);
    trace := g.TraceOnThread(name, newId, now);
    frames := client.stream.sent;
  }
}
