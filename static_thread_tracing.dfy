/** `client/StaticThreadTracing.java`: the oldest thread-contextual layer.
    It has no enable flag and no no-op objects: the analysis is a plain
    static field that may be replaced at any time, contexts are always
    pushed, and a trace that can be neither extended nor started throws.
    Its thread traces and contexts are the same push-on-create,
    pop-on-close objects as in the other variants, so they are modelled by
    `ThreadStacks.ThreadTraceImpl` and `ThreadStacks.ContextImpl`. */
module StaticThreading {
  import opened Wrappers
  import opened UuidCodec
  import opened TraceStreams
  import opened Tracing
  import opened TracingApi
  import opened ThreadStacks
  import GrablThreadStatic

  const NoContext := "No context found: must be in a ThreadContext"
  const NoAnalysis := "Cannot use static tracing without setting an analysis"
  const NotInContext := "Cannot replace tracker when not in a context"

  /** The decision rule of `traceOnThread`, checked in this order: a trace
      on the stack; no context; no analysis. The layer never degrades to
      a no-op trace: it extends, starts, or throws, and a missing context
      is reported before a missing analysis. */
  function TraceRoute(stacked: bool, context: bool, analysis: bool): (r: Route)
    ensures r != NoOpRoute
    ensures stacked ==> r == ChildRoute
    ensures !stacked && !context ==> r == Refused(NoContext)
    ensures r == Refused(NoAnalysis) <==> !stacked && context && !analysis
  {
    if stacked then ChildRoute
    else if !context then Refused(NoContext)
    else if analysis then RootRoute
    else Refused(NoAnalysis)
  }

  /** With an analysis in place, this rule and the Grabl rule with its
      analysis opened are the same rule. */
  lemma AgreesWithGrabl(stacked: bool, context: bool)
    ensures TraceRoute(stacked, context, true) == GrablThreadStatic.TraceRoute(true, stacked, context)
  {
  }

  class StaticThreadTracing {
    var singletonAnalysis: Option<Analysis>
    const contextStack: ThreadStack<ContextImpl>
    const traceStack: ThreadStack<ThreadTraceImpl>

    /** Every stacked item belongs to its stack. */
    ghost predicate Valid()
      reads this, contextStack, traceStack
    {
      TracesBelong(traceStack) && ContextsBelong(contextStack)
    }

    constructor ()
      ensures singletonAnalysis.None?
      ensures fresh(contextStack) && fresh(traceStack)
      ensures contextStack.Items() == [] && traceStack.Items() == []
      ensures Valid()
    {
      singletonAnalysis := None;
      contextStack := new ThreadStack<ContextImpl>();
      traceStack := new ThreadStack<ThreadTraceImpl>();
    }

    function AnalysisTargets(): set<object>
      reads this
    {
      if singletonAnalysis.Some? then AnalysisObjects(singletonAnalysis.value) else {}
    }

    /** `newId` is fresh for every client a new trace might use. */
    ghost predicate FreshId(newId: Uuid)
      reads this, traceStack, TopObjects(traceStack), AnalysisTargets()
    {
      && FreshForTop(traceStack, newId)
      && (singletonAnalysis.Some? ==> FreshForAnalysis(singletonAnalysis.value, newId))
    }

    /** `setAnalysis`: no guard; the last analysis set (null included)
        is the one used. */
    method SetAnalysis(analysis: Option<Analysis>)
      modifies this
      ensures singletonAnalysis == analysis
    {
      singletonAnalysis := analysis;
    }

    /** `traceOnThread(name)`, following `TraceRoute`. A root takes the top
        context's tracker and iteration. */
    method TraceOnThread(name: Option<string>, newId: Uuid, now: Long) returns (r: Result<ThreadTrace, ThreadError>)
      requires Valid() && FreshId(newId)
      modifies traceStack, TopObjects(traceStack), AnalysisTargets()
      ensures Valid()
      ensures r.Success? ==> r.value.Pushed?
      ensures TraceRoute(old(traceStack.Items()) != [], old(contextStack.Items()) != [], old(singletonAnalysis).Some?)
              == ChildRoute ==>
        && PushedChild(traceStack, old(traceStack.Items())[0], r, name, newId, now)
        && unchanged(AnalysisTargets() - old(TopObjects(traceStack)))
      ensures TraceRoute(old(traceStack.Items()) != [], old(contextStack.Items()) != [], old(singletonAnalysis).Some?)
              == RootRoute ==>
        PushedRoot(traceStack, r, old(singletonAnalysis).value, old(contextStack.Items())[0], name, newId, now)
      ensures TraceRoute(old(traceStack.Items()) != [], old(contextStack.Items()) != [], old(singletonAnalysis).Some?).Refused? ==>
        && r == Failure(IllegalState(TraceRoute(old(traceStack.Items()) != [], old(contextStack.Items()) != [],
                                                old(singletonAnalysis).Some?).message))
        && unchanged(traceStack) && unchanged(AnalysisTargets())
    {
      var stacked := traceStack.Peek();
      if stacked.Some? {
        var c := stacked.value.TraceOnThread(name, newId, now);
        r := if c.Success? then Success(Pushed(c.value)) else Failure(c.error);
        return;
      }
      var context := contextStack.Peek();
      if context.None? {
        return Failure(IllegalState(NoContext));
      }
      if singletonAnalysis.Some? {
        var root := RootOf(singletonAnalysis.value, name, context.value.tracker, context.value.iteration, newId, now);
        if root.Failure? {
          return Failure(TraceFailure(root.error));
        }
        var t := new ThreadTraceImpl(root.value, traceStack);
        return Success(Pushed(t));
      }
      r := Failure(IllegalState(NoAnalysis));
    }

    /** `contextOnThread(tracker, iteration)`: always exactly one new
        context on top of the context stack. */
    method ContextOnThread(tracker: Option<string>, iteration: Int32) returns (r: ContextImpl)
      requires Valid()
      modifies contextStack
      ensures Valid()
      ensures fresh(r) && r.tracker == tracker && r.iteration == iteration
      ensures contextStack.Items() == [r] + old(contextStack.Items())
    {
      r := new ContextImpl(tracker, iteration, contextStack);
    }

    /** `replaceTrackerOnThread(tracker)`: throws outside any context;
        otherwise pushes a new context with the new tracker and the top
        context's iteration, above the old one, which stays. */
    method ReplaceTrackerOnThread(tracker: Option<string>) returns (r: Result<ContextImpl, ThreadError>)
      requires Valid()
      modifies contextStack
      ensures Valid()
      ensures old(contextStack.Items()) == [] ==>
        r == Failure(IllegalState(NotInContext)) && contextStack.Items() == []
      ensures old(contextStack.Items()) != [] ==>
        && r.Success? && fresh(r.value)
        && r.value.tracker == tracker && r.value.iteration == old(contextStack.Items())[0].iteration
        && contextStack.Items() == [r.value] + old(contextStack.Items())
    {
      var stacked := contextStack.Peek();
      if stacked.None? {
        return Failure(IllegalState(NotInContext));
      }
      var c := new ContextImpl(tracker, stacked.value.iteration, contextStack);
      r := Success(c);
    }
  }

  /** A context pushed with tracker "t" and iteration 5, then a trace
      started with no trace active: the one frame sent is a root start
      carrying tracker "t" and iteration 5, whose id is the trace's own
      id, and the new trace is on the stack. */
  method ContextReachesRoot(created: Long, newId: Uuid, now: Long)
    returns (trace: Result<ThreadTrace, ThreadError>, frames: seq<Frame>, depth: nat)
    ensures trace.Success? && depth == 1
    ensures frames == [RootStart(Encode(Some(newId)), LongId(created), "t", 5, "x", now)]
  {
    var client := new StandardClient();
    var a := client.Analysis(Some("owner"), Some("repo"), Some("commit"), Some("analysis"), created);
    var g := new StaticThreadTracing();
    g.SetAnalysis(Some(StandardAnalysis(a.value)));
    var _ := g.ContextOnThread(Some("t"), 5);
    trace := g.TraceOnThread(Some("x"), newId, now);
    frames := client.stream.sent;
    depth := |g.traceStack.Items()|;
  }

  /** A standard client with an analysis set and one context ("t", 5)
      on the thread, nothing sent yet. */
  method SessionWithContext(created: Long)
    returns (client: StandardClient, analysis: AnalysisImpl, g: StaticThreadTracing, ctx: ContextImpl)
    ensures fresh(client) && fresh(client.stream) && fresh(g) && fresh(g.traceStack) && fresh(g.contextStack)
    ensures client.stream.sent == [] && client.stream.errors == [] && !client.stream.finished && client.issued == {}
    ensures analysis.client == client && analysis.analysisId == LongId(created)
    ensures g.Valid() && g.singletonAnalysis == Some(StandardAnalysis(analysis))
    ensures g.traceStack.Items() == [] && g.contextStack.Items() == [ctx]
    ensures ctx.home == g.contextStack && ctx.tracker == Some("t") && ctx.iteration == 5
  {
    client := new StandardClient();
    var a := client.Analysis(Some("owner"), Some("repo"), Some("commit"), Some("analysis"), created);
    analysis := a.value;
    g := new StaticThreadTracing();
    g.SetAnalysis(Some(StandardAnalysis(analysis)));
    ctx := g.ContextOnThread(Some("t"), 5);
  }

  /** From a context, a root trace and then a child of it pushed on the
      thread: the child wraps a child of the root, and the frames sent are
      the root start and the child start naming the root as parent and
      root. */
  method RootThenChild(created: Long, u1: Uuid, u2: Uuid, t0: Long, t1: Long)
    returns (client: StandardClient, g: StaticThreadTracing, ctx: ContextImpl, root: ThreadTraceImpl,
             child: ThreadTraceImpl)
    requires u1 != u2
    ensures fresh(client) && fresh(client.stream) && fresh(g) && fresh(g.traceStack) && fresh(g.contextStack)
    ensures client.stream.sent == [
      RootStart(Encode(Some(u1)), LongId(created), "t", 5, "root", t0),
      ChildStart(Encode(Some(u2)), Encode(Some(u1)), Encode(Some(u1)), "child", t1)]
    ensures !client.stream.finished && g.Valid()
    ensures g.traceStack.Items() == [child, root] && g.contextStack.Items() == [ctx] && ctx.home == g.contextStack
    ensures root.home == g.traceStack && child.home == g.traceStack
    ensures root.inner.Standard? && root.inner.impl.id == u1 && root.inner.impl.rootId == u1
    ensures child.inner.Standard? && child.inner.impl.id == u2 && child.inner.impl.rootId == u1
    ensures root.inner.impl.client == client && child.inner.impl.client == client
  {
    var analysis;
    client, analysis, g, ctx := SessionWithContext(created);
    var r := g.TraceOnThread(Some("root"), u1, t0);
    root := r.value.impl;
    assert client.stream.sent == [RootFrame(analysis, u1, "t", 5, "root", t0)];
    assert client.issued == {u1} && !client.stream.finished;
    var c := g.TraceOnThread(Some("child"), u2, t1);
    child := c.value.impl;
    assert client.stream.sent == [RootFrame(analysis, u1, "t", 5, "root", t0), ChildFrame(root.inner.impl, u2, "child", t1)];
  }

  /** A root from a context, a child of it on the thread, and both closed
      in LIFO order, then the context: four frames in order (root start,
      child start, child end, root end), every close succeeds, and both
      stacks end empty. */
  method NestedSession(created: Long, u1: Uuid, u2: Uuid, t0: Long, t1: Long, t2: Long, t3: Long)
    returns (frames: seq<Frame>, closes: seq<Result<(), ThreadError>>, traces: nat, contexts: nat)
    requires u1 != u2
    ensures frames == [
      RootStart(Encode(Some(u1)), LongId(created), "t", 5, "root", t0),
      ChildStart(Encode(Some(u2)), Encode(Some(u1)), Encode(Some(u1)), "child", t1),
      End(Encode(Some(u2)), Encode(Some(u1)), t2),
      End(Encode(Some(u1)), Encode(Some(u1)), t3)]
    ensures |closes| == 3 && closes[0].Success? && closes[1].Success? && closes[2].Success?
    ensures traces == 0 && contexts == 0
  {
    var client, g, ctx, root, child := RootThenChild(created, u1, u2, t0, t1);
    ghost var started := client.stream.sent;
    var c1 := child.Close(t2);
    assert g.traceStack.Items() == [root];
    assert client.stream.sent == started + [EndFrame(child.inner.impl, t2)];
    var c2 := root.Close(t3);
    assert client.stream.sent == started + [EndFrame(child.inner.impl, t2), EndFrame(root.inner.impl, t3)];
    var c3 := ctx.Close();
    closes := [c1, c2, c3];
    frames := client.stream.sent;
    traces := |g.traceStack.Items()|;
    contexts := |g.contextStack.Items()|;
  }

  /** Closing a root while its child is still on the stack: the root's end
      frame is sent, the child is popped in its place and the close
      throws; the child stays popped, so only the root is left. */
  method TracesEndedOutOfOrder(created: Long, u1: Uuid, u2: Uuid, t0: Long, t1: Long, t2: Long)
    returns (closed: Result<(), ThreadError>, lastFrame: Frame, left: seq<Option<Uuid>>)
    requires u1 != u2
    ensures closed == Failure(IllegalState(WrongTraceOrder))
    ensures lastFrame == End(Encode(Some(u1)), Encode(Some(u1)), t2)
    ensures left == [Some(u1)]
  {
    var client, g, ctx, root, child := RootThenChild(created, u1, u2, t0, t1);
    closed := root.Close(t2);
    lastFrame := client.stream.sent[|client.stream.sent| - 1];
    left := seq(|g.traceStack.Items()|, i requires 0 <= i < |g.traceStack.Items()| reads g.traceStack =>
                g.traceStack.Items()[i].GetId());
  }

  /** Replacing the tracker outside a context throws; inside one it
      pushes the new tracker with the old iteration above the old
      context. */
  method ReplaceKeepsIteration()
    returns (outside: Result<ContextImpl, ThreadError>, inside: Result<ContextImpl, ThreadError>,
             tracker: Option<string>, iteration: Int32, beneath: Option<string>)
    ensures outside == Failure(IllegalState(NotInContext))
    ensures inside.Success? && tracker == Some("b") && iteration == 3 && beneath == Some("a")
  {
    var g := new StaticThreadTracing();
    outside := g.ReplaceTrackerOnThread(Some("b"));
    var _ := g.ContextOnThread(Some("a"), 3);
    inside := g.ReplaceTrackerOnThread(Some("b"));
    tracker := inside.value.tracker;
    iteration := inside.value.iteration;
    beneath := g.contextStack.Items()[1].tracker;
  }

  /** From a context, one root trace pushed on the thread, whose start
      frame is the only one sent. */
  method SessionWithRoot(created: Long, u1: Uuid, t0: Long)
    returns (client: StandardClient, g: StaticThreadTracing, root: ThreadTraceImpl)
    ensures fresh(client) && fresh(client.stream) && fresh(g) && fresh(g.traceStack) && fresh(g.contextStack)
    ensures client.stream.sent == [RootStart(Encode(Some(u1)), LongId(created), "t", 5, "root", t0)]
    ensures !client.stream.finished && client.stream.errors == [] && client.issued == {u1}
    ensures g.Valid() && g.traceStack.Items() == [root] && root.home == g.traceStack
    ensures root.inner.Standard? && root.inner.impl.client == client
    ensures g.singletonAnalysis.Some? && g.singletonAnalysis.value.StandardAnalysis?
    ensures g.singletonAnalysis.value.impl.client == client
  {
    var analysis, ctx;
    client, analysis, g, ctx := SessionWithContext(created);
    var r := g.TraceOnThread(Some("root"), u1, t0);
    root := r.value.impl;
  }

  /** An error from the backend while a root is on the thread surfaces on
      the next `traceOnThread`: that error is the cause with "Connection
      Lost" suppressed, the child's frame is not sent, the buffer is
      drained, and nothing is pushed. */
  method ErrorSurfacesOnThread(created: Long, e: Throwable, u1: Uuid, u2: Uuid, t0: Long, t1: Long)
    returns (r: Result<ThreadTrace, ThreadError>, frames: seq<Frame>, buffered: seq<Throwable>, traces: nat)
    requires u1 != u2
    ensures r == Failure(TraceFailure(StreamError(Raised(e, [ConnectionLost]))))
    ensures frames == [RootStart(Encode(Some(u1)), LongId(created), "t", 5, "root", t0)]
    ensures buffered == [] && traces == 1
  {
    var client, g, root := SessionWithRoot(created, u1, t0);
    client.stream.OnError(e);
    assert g.Valid() && g.FreshId(u2);
    r := g.TraceOnThread(Some("child"), u2, t1);
    frames := client.stream.sent;
    buffered := client.stream.errors;
    traces := |g.traceStack.Items()|;
  }
}
