/** The pieces the three thread-contextual variants share: the per-thread
    `ThreadStack`, the context object that pushes itself on the context
    stack, and the thread trace that wraps a trace and pushes itself on the
    trace stack. Each variant's source file carries its own private copy of
    these classes, and the copies are the same code; one model serves all
    three.

    A `ThreadLocal` gives each thread its own deque. The model follows one
    thread, so a stack is a plain object holding that thread's deque, or
    nothing when the thread has none. */
module ThreadStacks {
  import opened Wrappers
  import opened UuidCodec
  import opened TraceStreams
  import opened Tracing
  import opened TracingApi

  /** What the thread-contextual layer can throw: a failure of the trace
      call underneath, an `IllegalStateException` with its message, the
      `NoSuchElementException` of popping an empty stack, or the
      `NullPointerException` of calling through a null singleton. */
  datatype ThreadError =
    | TraceFailure(failure: Tracing.Failure)
    | IllegalState(message: string)
    | NoSuchElement
    | NullReference

  /** The outcome a thread-layer call reports, as the stream saw it. */
  function ThreadOutcomeOf<T>(r: Result<T, ThreadError>): (o: Outcome)
    ensures o.Thrown? <==> r.Failure? && r.error.TraceFailure? && r.error.failure.StreamError?
  {
    if r.Failure? && r.error.TraceFailure? && r.error.failure.StreamError? then Thrown(r.error.failure.ex)
    else Normal
  }

  /** One send on the stream behind the standard trace `t`, as a
      thread-layer call reports it: while the stream is live the frame
      `f` goes out and nothing is raised; once it has finished nothing
      goes out and the buffered errors are raised with "Connection Lost"
      and drained. */
  twostate predicate SentOn(t: Trace, f: Frame, o: Outcome)
    reads TraceObjects(t)
  {
    SendStep(old(SentBy(t)), old(Finished(t)), old(ErrorsOf(t)), SentBy(t), ErrorsOf(t), f, o)
  }

  /** Nothing was sent on the stream behind `t`, and its buffer is as it
      was. */
  twostate predicate Untouched(t: Trace)
    reads TraceObjects(t)
  {
    SentBy(t) == old(SentBy(t)) && ErrorsOf(t) == old(ErrorsOf(t))
  }

  const WrongTraceOrder := "Traces were ended in the wrong order"
  const NullName := "Cannot use null name"
  const NullData := "Cannot use null data"
  const NullTracker := "Cannot use null tracker"
  const WrongContextOrder := "Contexts were ended in the wrong order"

  /** `ThreadStack<T>`: this thread's deque, absent until the first push
      and cleared again when a pop empties it. The top is the first
      element, as with `ArrayDeque.push`. */
  class ThreadStack<T(==)> {
    var deque: Option<seq<T>>

    constructor ()
      ensures deque.None?
    {
      deque := None;
    }

    /** The stack's items, top first. */
    function Items(): seq<T>
      reads this
    {
      if deque.Some? then deque.value else []
    }

    /** A present deque is never empty. */
    ghost predicate Valid()
      reads this
    {
      deque != Some([])
    }

    /** `push`: create the deque if absent, then put `x` on top. */
    method Push(x: T)
      modifies this
      ensures Items() == [x] + old(Items())
      ensures deque.Some? && Valid()
    {
      var d := if deque.None? then [] else deque.value;
      deque := Some([x] + d);
    }

    /** `pop`: throw when there is no deque (or an empty one); otherwise
        take the top, and clear the deque if that emptied it. */
    method Pop() returns (r: Result<T, ThreadError>)
      modifies this
      ensures old(Items()) == [] ==> r == Failure(NoSuchElement) && deque == old(deque)
      ensures old(Items()) != [] ==> r == Success(old(Items())[0]) && Items() == old(Items())[1..]
      ensures old(Items()) != [] && Items() == [] ==> deque.None?
      ensures old(Valid()) ==> Valid()
    {
      if deque.None? || deque.value == [] {
        return Failure(NoSuchElement);
      }
      var d := deque.value;
      r := Success(d[0]);
      deque := if |d| == 1 then None else Some(d[1..]);
    }

    /** `peek`: null when there is nothing on the stack, else the top. */
    function Peek(): (r: Option<T>)
      reads this
      ensures r.None? <==> Items() == []
      ensures r.Some? ==> r.value == Items()[0] && r.value in Items()
    {
      if deque.None? || deque.value == [] then None else Some(deque.value[0])
    }
  }

  /** Push `a`, push `b`: `peek` sees `b`; pops return `b`, then `a`, then
      throw; the emptied stack has no deque left. */
  method StackIsLifo<T(==)>(a: T, b: T)
    returns (top: Option<T>, first: Result<T, ThreadError>, second: Result<T, ThreadError>,
             third: Result<T, ThreadError>, cleared: bool, emptyPeek: Option<T>)
    ensures top == Some(b)
    ensures first == Success(b) && second == Success(a) && third == Failure(NoSuchElement)
    ensures cleared && emptyPeek.None?
  {
    var s := new ThreadStack<T>();
    s.Push(a);
    s.Push(b);
    top := s.Peek();
    first := s.Pop();
    second := s.Pop();
    cleared := s.deque.None?;
    third := s.Pop();
    emptyPeek := s.Peek();
  }

  /** `ThreadContextImpl`: a tracker and an iteration, pushed on the
      context stack when made. The tracker is whatever the caller gave,
      null included. */
  class ContextImpl {
    const tracker: Option<string>
    const iteration: Int32
    const home: ThreadStack<ContextImpl>

    constructor (tracker: Option<string>, iteration: Int32, home: ThreadStack<ContextImpl>)
      modifies home
      ensures this.tracker == tracker && this.iteration == iteration && this.home == home
      ensures home.Items() == [this] + old(home.Items()) && home.Valid()
    {
      this.tracker := tracker;
      this.iteration := iteration;
      this.home := home;
      new;
      home.Push(this);
    }

    /** `close`: pop the top context; it must be this one. */
    method Close() returns (r: Result<(), ThreadError>)
      modifies home
      ensures old(home.Items()) == [] ==> r == Failure(NoSuchElement) && home.deque == old(home.deque)
      ensures old(home.Items()) != [] ==>
        && home.Items() == old(home.Items())[1..]
        && (r.Success? <==> old(home.Items())[0] == this)
        && (r.Failure? ==> r.error == IllegalState(WrongContextOrder))
      ensures old(home.Valid()) ==> home.Valid()
    {
      var popped := home.Pop();
      if popped.Failure? {
        return Failure(popped.error);
      }
      if popped.value != this {
        return Failure(IllegalState(WrongContextOrder));
      }
      r := Success(());
    }
  }

  /** A `ThreadContext`: the no-op context, or a pushed one. */
  datatype ThreadContext = NoOpContext | ContextOf(impl: ContextImpl)

  /** `getTracker`: the no-op context answers the empty string. */
  function TrackerOf(c: ThreadContext): (r: Option<string>)
    ensures c.NoOpContext? ==> r == Some("")
    ensures c.ContextOf? ==> r == c.impl.tracker
  {
    if c.NoOpContext? then Some("") else c.impl.tracker
  }

  /** `getIteration`: the no-op context answers 0. */
  function IterationOf(c: ThreadContext): (r: Int32)
    ensures c.NoOpContext? ==> r == 0
    ensures c.ContextOf? ==> r == c.impl.iteration
  {
    if c.NoOpContext? then 0 else c.impl.iteration
  }

  /** `close` of a `ThreadContext`: nothing for the no-op context. */
  method CloseContext(c: ThreadContext) returns (r: Result<(), ThreadError>)
    modifies if c.ContextOf? then {c.impl.home} else {}
    ensures c.NoOpContext? ==> r == Success(())
    ensures c.ContextOf? ==>
      if old(c.impl.home.Items()) == [] then r == Failure(NoSuchElement)
      else c.impl.home.Items() == old(c.impl.home.Items())[1..] &&
           (r.Success? <==> old(c.impl.home.Items())[0] == c.impl)
  {
    if c.NoOpContext? {
      return Success(());
    }
    r := c.impl.Close();
  }

  /** The parent-child link the thread layer promises between the trace
      it wraps and the one it creates: a no-op parent gives the no-op
      trace; a standard parent gives a standard child with the fresh id,
      in the same tree, one level below. */
  ghost predicate IsChildOf(child: Trace, parent: Trace, newId: Uuid)
  {
    && (parent.NoOpTrace? ==> child == NoOpTrace)
    && (parent.Standard? ==>
          && child.Standard? && child.impl.id == newId && child.impl.rootId == parent.impl.rootId
          && child.impl.origin == Tracing.ChildOf(parent.impl) && child.impl.client == parent.impl.client)
  }

  /** The link between an analysis and a root trace it starts. */
  ghost predicate IsRootOf(root: Trace, a: Analysis, newId: Uuid)
  {
    && (a.NoOpAnalysis? ==> root == NoOpTrace)
    && (a.StandardAnalysis? ==>
          && root.Standard? && root.impl.id == newId && root.impl.rootId == newId
          && root.impl.origin == Root && root.impl.client == a.impl.client)
  }

  /** `ThreadTraceImpl`: a trace that pushed itself on the trace stack when
      it was made. */
  class ThreadTraceImpl {
    const inner: Trace
    const home: ThreadStack<ThreadTraceImpl>

    /** The wrapped trace sits correctly in its tree. */
    ghost predicate Valid()
    {
      Linked(inner)
    }

    constructor (inner: Trace, home: ThreadStack<ThreadTraceImpl>)
      requires Linked(inner)
      modifies home
      ensures this.inner == inner && this.home == home && Valid()
      ensures home.Items() == [this] + old(home.Items()) && home.Valid()
    {
      this.inner := inner;
      this.home := home;
      new;
      home.Push(this);
    }

    /** `traceOnThread(name)`: a child of the wrapped trace, pushed on the
        stack. Nothing is pushed when creating the child throws. */
    method TraceOnThread(name: Option<string>, newId: Uuid, now: Long) returns (r: Result<ThreadTraceImpl, ThreadError>)
      requires Valid() && FreshForTrace(inner, newId)
      modifies home, TraceObjects(inner)
      ensures Finished(inner) == old(Finished(inner))
      ensures r.Success? ==>
        && fresh(r.value) && r.value.Valid() && r.value.home == home
        && home.Items() == [r.value] + old(home.Items())
        && IsChildOf(r.value.inner, inner, newId)
      ensures r.Failure? ==> r.error.TraceFailure? && home.Items() == old(home.Items())
      ensures r.Success? <==> inner.NoOpTrace? || (name.Some? && !old(Finished(inner)))
      ensures inner.Standard? && name.Some? ==> inner.impl.client.issued == old(inner.impl.client.issued) + {newId}
      ensures inner.Standard? ==>
        SentBy(inner) == old(SentBy(inner)) + (if r.Success? then [ChildFrame(inner.impl, newId, name.value, now)] else [])
      ensures inner.Standard? && name.None? ==> r == Failure(TraceFailure(NullPointer(NullName))) && Untouched(inner)
      ensures inner.Standard? && name.Some? ==>
        SentOn(inner, ChildFrame(inner.impl, newId, name.value, now), ThreadOutcomeOf(r))
      ensures old(home.Valid()) ==> home.Valid()
    {
      var c := TracingApi.ChildOf(inner, name, newId, now);
      if c.Failure? {
        return Failure(TraceFailure(c.error));
      }
      var t := new ThreadTraceImpl(c.value, home);
      r := Success(t);
    }

    /** `trace(name)`: a child of the wrapped trace; the stack is left
        alone. */
    method Trace(name: Option<string>, newId: Uuid, now: Long) returns (r: Result<Trace, ThreadError>)
      requires Valid() && FreshForTrace(inner, newId)
      modifies TraceObjects(inner)
      ensures Finished(inner) == old(Finished(inner))
      ensures r.Success? ==> IsChildOf(r.value, inner, newId) && Linked(r.value)
      ensures r.Success? <==> inner.NoOpTrace? || (name.Some? && !old(Finished(inner)))
      ensures inner.Standard? ==>
        SentBy(inner) == old(SentBy(inner)) + (if r.Success? then [ChildFrame(inner.impl, newId, name.value, now)] else [])
      ensures inner.Standard? && name.None? ==> r == Failure(TraceFailure(NullPointer(NullName))) && Untouched(inner)
      ensures inner.Standard? && name.Some? ==>
        && inner.impl.client.issued == old(inner.impl.client.issued) + {newId}
        && SentOn(inner, ChildFrame(inner.impl, newId, name.value, now), ThreadOutcomeOf(r))
    {
      var c := TracingApi.ChildOf(inner, name, newId, now);
      r := if c.Success? then Success(c.value) else Failure(TraceFailure(c.error));
    }

    /** `data(data)`: forwarded; answers this thread trace. */
    method Data(data: Option<string>) returns (r: Result<ThreadTraceImpl, ThreadError>)
      modifies TraceObjects(inner)
      ensures Finished(inner) == old(Finished(inner))
      ensures r.Success? ==> r.value == this
      ensures r.Success? <==> inner.NoOpTrace? || (data.Some? && !old(Finished(inner)))
      ensures inner.Standard? ==>
        SentBy(inner) == old(SentBy(inner)) + (if r.Success? then [DataFrame(inner.impl, data.value)] else [])
      ensures inner.Standard? && data.None? ==> r == Failure(TraceFailure(NullPointer(NullData))) && Untouched(inner)
      ensures inner.Standard? && data.Some? ==> SentOn(inner, DataFrame(inner.impl, data.value), ThreadOutcomeOf(r))
    {
      var d := TracingApi.Data(inner, data);
      r := if d.Success? then Success(this) else Failure(TraceFailure(d.error));
    }

    /** `labels(labels...)`: forwarded; answers this thread trace. */
    method Labels(labels: seq<string>) returns (r: Result<ThreadTraceImpl, ThreadError>)
      modifies TraceObjects(inner)
      ensures Finished(inner) == old(Finished(inner))
      ensures r.Success? ==> r.value == this
      ensures r.Success? <==> !old(Finished(inner))
      ensures SentBy(inner) == old(SentBy(inner)) + (if r.Success? && inner.Standard? then [LabelsFrame(inner.impl, labels)] else [])
      ensures inner.Standard? ==> SentOn(inner, LabelsFrame(inner.impl, labels), ThreadOutcomeOf(r))
    {
      var d := TracingApi.Labels(inner, labels);
      r := if d.Success? then Success(this) else Failure(TraceFailure(d.error));
    }

    /** `end()`: forwarded; answers this thread trace. */
    method End(now: Long) returns (r: Result<ThreadTraceImpl, ThreadError>)
      modifies TraceObjects(inner)
      ensures Finished(inner) == old(Finished(inner))
      ensures r.Success? ==> r.value == this
      ensures r.Success? <==> !old(Finished(inner))
      ensures SentBy(inner) == old(SentBy(inner)) + (if r.Success? && inner.Standard? then [EndFrame(inner.impl, now)] else [])
      ensures inner.Standard? ==> SentOn(inner, EndFrame(inner.impl, now), ThreadOutcomeOf(r))
    {
      var d := TracingApi.End(inner, now);
      r := if d.Success? then Success(this) else Failure(TraceFailure(d.error));
    }

    /** `getId`, forwarded. */
    function GetId(): (r: Option<Uuid>)
      ensures r == IdOf(inner)
      ensures r.None? <==> inner.NoOpTrace?
    {
      IdOf(inner)
    }

    /** `getRootId`, forwarded. */
    function GetRootId(): (r: Option<Uuid>)
      requires Valid()
      ensures r.None? <==> inner.NoOpTrace?
      ensures inner.Standard? ==> r.value == TreeRoot(inner.impl)
    {
      RootIdOf(inner)
    }

    /** `close`: end the trace, then pop the trace stack, whose top must
        be this one. When ending throws, nothing is popped. When the top
        is another trace, that trace stays popped and the call throws. */
    method Close(now: Long) returns (r: Result<(), ThreadError>)
      modifies home, TraceObjects(inner)
      ensures Finished(inner) == old(Finished(inner))
      ensures SentBy(inner) == old(SentBy(inner)) + (if !old(Finished(inner)) && inner.Standard? then [EndFrame(inner.impl, now)] else [])
      ensures inner.Standard? ==> SentOn(inner, EndFrame(inner.impl, now), ThreadOutcomeOf(r))
      ensures old(Finished(inner)) ==> r.Failure? && r.error.TraceFailure? && home.deque == old(home.deque)
      ensures !old(Finished(inner)) && old(home.Items()) == [] ==> r == Failure(NoSuchElement)
      ensures !old(Finished(inner)) && old(home.Items()) != [] ==>
        && home.Items() == old(home.Items())[1..]
        && (r.Success? <==> old(home.Items())[0] == this)
        && (r.Failure? ==> r.error == IllegalState(WrongTraceOrder))
      ensures old(home.Valid()) ==> home.Valid()
    {
      var e := TracingApi.End(inner, now);
      if e.Failure? {
        return Failure(TraceFailure(e.error));
      }
      var popped := home.Pop();
      if popped.Failure? {
        return Failure(popped.error);
      }
      if popped.value != this {
        return Failure(IllegalState(WrongTraceOrder));
      }
      r := Success(());
    }
  }

  /** Which way `traceOnThread` goes: the no-op thread trace, a child of
      the top thread trace, a new root from the top context, or an
      `IllegalStateException` with the given message. */
  datatype Route = NoOpRoute | ChildRoute | RootRoute | Refused(message: string)

  /** The outcome of a `traceOnThread` that made a child of the top
      thread trace of `s`: on success a fresh thread trace wrapping a
      child of the top one, pushed on `s`; on failure `s` as it was. It
      succeeds exactly when the top trace is the no-op trace, or the name
      is non-null and the top trace's stream has not finished. */
  twostate predicate PushedChild(s: ThreadStack<ThreadTraceImpl>, top: ThreadTraceImpl,
                                 new r: Result<ThreadTrace, ThreadError>, name: Option<string>, newId: Uuid,
                                 now: Long)
    reads s, TraceObjects(top.inner)
  {
    && old(s.Items()) != [] && old(s.Items())[0] == top
    && (top.inner.Standard? && name.Some? ==>
          top.inner.impl.client.issued == old(top.inner.impl.client.issued) + {newId})
    && (top.inner.Standard? ==>
          SentBy(top.inner) == old(SentBy(top.inner))
            + (if r.Success? && name.Some? then [ChildFrame(top.inner.impl, newId, name.value, now)] else []))
    && (r.Success? ==>
          && r.value.Pushed? && fresh(r.value.impl) && r.value.impl.home == s
          && s.Items() == [r.value.impl] + old(s.Items())
          && IsChildOf(r.value.impl.inner, old(s.Items())[0].inner, newId))
    && (r.Failure? ==> r.error.TraceFailure? && s.Items() == old(s.Items()))
    && (r.Success? <==> top.inner.NoOpTrace? || (name.Some? && !old(Finished(top.inner))))
    && Finished(top.inner) == old(Finished(top.inner))
    && (top.inner.Standard? && name.None? ==>
          r == Failure(TraceFailure(NullPointer(NullName))) && Untouched(top.inner))
    && (top.inner.Standard? && name.Some? ==>
          SentOn(top.inner, ChildFrame(top.inner.impl, newId, name.value, now), ThreadOutcomeOf(r)))
  }

  /** The outcome of a `traceOnThread` that started a root from analysis
      `a` and the top context `c`: on success a fresh thread trace
      wrapping the new root, pushed on `s`, and, for a standard analysis,
      exactly one root-start frame carrying the context's tracker and
      iteration; on failure `s` as it was and nothing sent. */
  twostate predicate PushedRoot(s: ThreadStack<ThreadTraceImpl>, new r: Result<ThreadTrace, ThreadError>,
                                a: Analysis, c: ContextImpl, name: Option<string>, newId: Uuid, now: Long)
    reads s, AnalysisObjects(a)
  {
    && (r.Success? ==>
          && r.value.Pushed? && fresh(r.value.impl) && r.value.impl.home == s
          && s.Items() == [r.value.impl] + old(s.Items())
          && IsRootOf(r.value.impl.inner, a, newId))
    && (r.Failure? ==> r.error.TraceFailure? && s.Items() == old(s.Items()))
    && (r.Success? <==> a.NoOpAnalysis? || (name.Some? && c.tracker.Some? && !old(AnalysisFinished(a))))
    && (a.StandardAnalysis? && name.Some? && c.tracker.Some? ==>
          a.impl.client.issued == old(a.impl.client.issued) + {newId})
    && AnalysisFinished(a) == old(AnalysisFinished(a))
    && (a.StandardAnalysis? && r.Success? ==>
          a.impl.client.stream.sent ==
            old(a.impl.client.stream.sent) + [RootFrame(a.impl, newId, c.tracker.value, c.iteration, name.value, now)])
    && (a.StandardAnalysis? && r.Failure? ==> a.impl.client.stream.sent == old(a.impl.client.stream.sent))
    && (a.StandardAnalysis? && name.None? ==>
          && r == Failure(TraceFailure(NullPointer(NullName)))
          && a.impl.client.stream.errors == old(a.impl.client.stream.errors))
    && (a.StandardAnalysis? && name.Some? && c.tracker.None? ==>
          && r == Failure(TraceFailure(NullPointer(NullTracker)))
          && a.impl.client.stream.errors == old(a.impl.client.stream.errors))
    && (a.StandardAnalysis? && name.Some? && c.tracker.Some? ==>
          SendStep(old(a.impl.client.stream.sent), old(a.impl.client.stream.finished),
                   old(a.impl.client.stream.errors), a.impl.client.stream.sent, a.impl.client.stream.errors,
                   RootFrame(a.impl, newId, c.tracker.value, c.iteration, name.value, now), ThreadOutcomeOf(r)))
  }

  /** A `ThreadTrace`: the no-op thread trace, or a pushed one. */
  datatype ThreadTrace = NoOpThreadTrace | Pushed(impl: ThreadTraceImpl)

  function ThreadTraceObjects(t: ThreadTrace): set<object>
  {
    if t.Pushed? then {t.impl.home} + TraceObjects(t.impl.inner) else {}
  }

  /** `traceOnThread` of a `ThreadTrace`: the no-op thread trace answers
      itself. */
  method ChildOnThread(t: ThreadTrace, name: Option<string>, newId: Uuid, now: Long)
    returns (r: Result<ThreadTrace, ThreadError>)
    requires t.Pushed? ==> t.impl.Valid() && FreshForTrace(t.impl.inner, newId)
    modifies ThreadTraceObjects(t)
    ensures t.NoOpThreadTrace? ==> r == Success(NoOpThreadTrace)
    ensures t.Pushed? && r.Success? ==>
      && r.value.Pushed? && fresh(r.value.impl) && r.value.impl.home == t.impl.home
      && t.impl.home.Items() == [r.value.impl] + old(t.impl.home.Items())
      && IsChildOf(r.value.impl.inner, t.impl.inner, newId)
    ensures t.Pushed? ==>
      && Finished(t.impl.inner) == old(Finished(t.impl.inner))
      && (r.Failure? ==> r.error.TraceFailure? && t.impl.home.Items() == old(t.impl.home.Items()))
      && (r.Success? <==> t.impl.inner.NoOpTrace? || (name.Some? && !old(Finished(t.impl.inner))))
    ensures t.Pushed? && t.impl.inner.Standard? && name.None? ==>
      r == Failure(TraceFailure(NullPointer(NullName))) && Untouched(t.impl.inner)
    ensures t.Pushed? && t.impl.inner.Standard? && name.Some? ==>
      && t.impl.inner.impl.client.issued == old(t.impl.inner.impl.client.issued) + {newId}
      && SentOn(t.impl.inner, ChildFrame(t.impl.inner.impl, newId, name.value, now), ThreadOutcomeOf(r))
  {
    if t.NoOpThreadTrace? {
      return Success(NoOpThreadTrace);
    }
    var c := t.impl.TraceOnThread(name, newId, now);
    r := if c.Success? then Success(Pushed(c.value)) else Failure(c.error);
  }

  /** What `trace(name)` of a `ThreadTrace` answers: the no-op thread
      trace answers itself, a pushed one a plain child trace. */
  datatype AnyTrace = AThreadTrace(thread: ThreadTrace) | ATrace(trace: Trace)

  /** `trace(name)` of a `ThreadTrace`: the no-op thread trace answers
      itself and changes nothing; a pushed one makes a child of the trace
      it wraps and leaves the stack alone. */
  method ThreadTraceChild(t: ThreadTrace, name: Option<string>, newId: Uuid, now: Long)
    returns (r: Result<AnyTrace, ThreadError>)
    requires t.Pushed? ==> t.impl.Valid() && FreshForTrace(t.impl.inner, newId)
    modifies if t.Pushed? then TraceObjects(t.impl.inner) else {}
    ensures t.NoOpThreadTrace? ==> r == Success(AThreadTrace(NoOpThreadTrace))
    ensures t.Pushed? ==>
      && Finished(t.impl.inner) == old(Finished(t.impl.inner))
      && (r.Success? ==> r.value.ATrace? && IsChildOf(r.value.trace, t.impl.inner, newId) && Linked(r.value.trace))
      && (r.Success? <==> t.impl.inner.NoOpTrace? || (name.Some? && !old(Finished(t.impl.inner))))
    ensures t.Pushed? && t.impl.inner.Standard? && name.None? ==>
      r == Failure(TraceFailure(NullPointer(NullName))) && Untouched(t.impl.inner)
    ensures t.Pushed? && t.impl.inner.Standard? && name.Some? ==>
      && t.impl.inner.impl.client.issued == old(t.impl.inner.impl.client.issued) + {newId}
      && SentOn(t.impl.inner, ChildFrame(t.impl.inner.impl, newId, name.value, now), ThreadOutcomeOf(r))
  {
    if t.NoOpThreadTrace? {
      return Success(AThreadTrace(NoOpThreadTrace));
    }
    var c := t.impl.Trace(name, newId, now);
    r := if c.Success? then Success(ATrace(c.value)) else Failure(c.error);
  }

  /** `data(data)` of a `ThreadTrace`: the no-op thread trace answers
      itself; a pushed one forwards and answers itself. */
  method ThreadTraceData(t: ThreadTrace, data: Option<string>) returns (r: Result<ThreadTrace, ThreadError>)
    modifies if t.Pushed? then TraceObjects(t.impl.inner) else {}
    ensures t.NoOpThreadTrace? ==> r == Success(NoOpThreadTrace)
    ensures t.Pushed? ==>
      && Finished(t.impl.inner) == old(Finished(t.impl.inner))
      && (r.Success? ==> r.value == t)
      && (r.Success? <==> t.impl.inner.NoOpTrace? || (data.Some? && !old(Finished(t.impl.inner))))
    ensures t.Pushed? && t.impl.inner.Standard? && data.None? ==>
      r == Failure(TraceFailure(NullPointer(NullData))) && Untouched(t.impl.inner)
    ensures t.Pushed? && t.impl.inner.Standard? && data.Some? ==>
      SentOn(t.impl.inner, DataFrame(t.impl.inner.impl, data.value), ThreadOutcomeOf(r))
  {
    if t.NoOpThreadTrace? {
      return Success(NoOpThreadTrace);
    }
    var d := t.impl.Data(data);
    r := if d.Success? then Success(t) else Failure(d.error);
  }

  /** `labels(labels...)` of a `ThreadTrace`: the no-op thread trace
      answers itself; a pushed one forwards and answers itself. */
  method ThreadTraceLabels(t: ThreadTrace, labels: seq<string>) returns (r: Result<ThreadTrace, ThreadError>)
    modifies if t.Pushed? then TraceObjects(t.impl.inner) else {}
    ensures t.NoOpThreadTrace? ==> r == Success(NoOpThreadTrace)
    ensures t.Pushed? ==>
      && Finished(t.impl.inner) == old(Finished(t.impl.inner))
      && (r.Success? ==> r.value == t)
      && (r.Success? <==> !old(Finished(t.impl.inner)))
    ensures t.Pushed? && t.impl.inner.Standard? ==>
      SentOn(t.impl.inner, LabelsFrame(t.impl.inner.impl, labels), ThreadOutcomeOf(r))
  {
    if t.NoOpThreadTrace? {
      return Success(NoOpThreadTrace);
    }
    var d := t.impl.Labels(labels);
    r := if d.Success? then Success(t) else Failure(d.error);
  }

  /** `end()` of a `ThreadTrace`: the no-op thread trace answers itself;
      a pushed one forwards and answers itself, and stays on the stack. */
  method ThreadTraceEnd(t: ThreadTrace, now: Long) returns (r: Result<ThreadTrace, ThreadError>)
    modifies if t.Pushed? then TraceObjects(t.impl.inner) else {}
    ensures t.NoOpThreadTrace? ==> r == Success(NoOpThreadTrace)
    ensures t.Pushed? ==>
      && Finished(t.impl.inner) == old(Finished(t.impl.inner))
      && (r.Success? ==> r.value == t)
      && (r.Success? <==> !old(Finished(t.impl.inner)))
    ensures t.Pushed? && t.impl.inner.Standard? ==>
      SentOn(t.impl.inner, EndFrame(t.impl.inner.impl, now), ThreadOutcomeOf(r))
  {
    if t.NoOpThreadTrace? {
      return Success(NoOpThreadTrace);
    }
    var d := t.impl.End(now);
    r := if d.Success? then Success(t) else Failure(d.error);
  }

  /** `traceOnThread`, `trace`, `data`, `labels` and `end` of the no-op
      thread trace each answer it and throw nothing; its ids are null and
      its `close` does nothing. The no-op context answers ("", 0) and its
      `close` does nothing. */
  method NoOpThreadTraceIsInert(name: Option<string>, data: Option<string>, labels: seq<string>,
                                newId: Uuid, now: Long)
    returns (child: Result<ThreadTrace, ThreadError>, traced: Result<AnyTrace, ThreadError>,
             answers: seq<Result<ThreadTrace, ThreadError>>, closed: Result<(), ThreadError>,
             id: Option<Uuid>, rootId: Option<Uuid>, context: (Option<string>, Int32),
             contextClosed: Result<(), ThreadError>)
    ensures child == Success(NoOpThreadTrace) && traced == Success(AThreadTrace(NoOpThreadTrace))
    ensures answers == [Success(NoOpThreadTrace), Success(NoOpThreadTrace), Success(NoOpThreadTrace)]
    ensures closed == Success(())
    ensures id.None? && rootId.None?
    ensures context == (Some(""), 0) && contextClosed == Success(())
  {
    child := ChildOnThread(NoOpThreadTrace, name, newId, now);
    traced := ThreadTraceChild(NoOpThreadTrace, name, newId, now);
    var d := ThreadTraceData(NoOpThreadTrace, data);
    var l := ThreadTraceLabels(NoOpThreadTrace, labels);
    var e := ThreadTraceEnd(NoOpThreadTrace, now);
    answers := [d, l, e];
    closed := CloseThreadTrace(NoOpThreadTrace, now);
    id := ThreadTraceId(NoOpThreadTrace);
    rootId := ThreadTraceRootId(NoOpThreadTrace);
    context := (TrackerOf(NoOpContext), IterationOf(NoOpContext));
    contextClosed := CloseContext(NoOpContext);
  }

  /** `getId` of a `ThreadTrace`: null for the no-op one. */
  function ThreadTraceId(t: ThreadTrace): (r: Option<Uuid>)
    ensures r.None? <==> t.NoOpThreadTrace? || t.impl.inner.NoOpTrace?
  {
    if t.NoOpThreadTrace? then None else t.impl.GetId()
  }

  /** `getRootId` of a `ThreadTrace`: null for the no-op one. */
  function ThreadTraceRootId(t: ThreadTrace): (r: Option<Uuid>)
    requires t.Pushed? ==> t.impl.Valid()
    ensures r.None? <==> t.NoOpThreadTrace? || t.impl.inner.NoOpTrace?
  {
    if t.NoOpThreadTrace? then None else t.impl.GetRootId()
  }

  /** `close` of a `ThreadTrace`: nothing for the no-op one. */
  method CloseThreadTrace(t: ThreadTrace, now: Long) returns (r: Result<(), ThreadError>)
    modifies ThreadTraceObjects(t)
    ensures t.NoOpThreadTrace? ==> r == Success(())
    ensures t.Pushed? ==> Finished(t.impl.inner) == old(Finished(t.impl.inner))
    ensures t.Pushed? && t.impl.inner.Standard? ==>
      SentOn(t.impl.inner, EndFrame(t.impl.inner.impl, now), ThreadOutcomeOf(r))
    ensures t.Pushed? && old(Finished(t.impl.inner)) ==>
      r.Failure? && r.error.TraceFailure? && t.impl.home.deque == old(t.impl.home.deque)
    ensures t.Pushed? && !old(Finished(t.impl.inner)) && old(t.impl.home.Items()) == [] ==>
      r == Failure(NoSuchElement)
    ensures t.Pushed? && !old(Finished(t.impl.inner)) && old(t.impl.home.Items()) != [] ==>
      && t.impl.home.Items() == old(t.impl.home.Items())[1..]
      && (r.Success? <==> old(t.impl.home.Items())[0] == t.impl)
      && (r.Failure? ==> r.error == IllegalState(WrongTraceOrder))
  {
    if t.NoOpThreadTrace? {
      return Success(());
    }
    r := t.impl.Close(now);
  }

  /** Every thread trace on `s` wraps a well-linked trace and belongs to
      `s`. */
  ghost predicate TracesBelong(s: ThreadStack<ThreadTraceImpl>)
    reads s
  {
    s.Valid() && forall t :: t in s.Items() ==> t.Valid() && t.home == s
  }

  ghost predicate ContextsBelong(s: ThreadStack<ContextImpl>)
    reads s
  {
    s.Valid() && forall c :: c in s.Items() ==> c.home == s
  }

  /** What the top thread trace of `s` may change when a child is made. */
  function TopObjects(s: ThreadStack<ThreadTraceImpl>): set<object>
    reads s
  {
    if s.Items() != [] then TraceObjects(s.Items()[0].inner) else {}
  }

  /** `newId` is fresh for the top trace's client. */
  ghost predicate FreshForTop(s: ThreadStack<ThreadTraceImpl>, newId: Uuid)
    reads s, TopObjects(s)
  {
    s.Items() != [] ==> FreshForTrace(s.Items()[0].inner, newId)
  }

  /** Two contexts pushed as A then B and closed A first: closing A pops B
      and throws, leaving A; closing B then pops A and throws, leaving
      nothing. Closing in LIFO order instead (B then A) succeeds. */
  method ContextsEndedOutOfOrder(tracker: Option<string>)
    returns (closeA: Result<(), ThreadError>, left: nat, closeB: Result<(), ThreadError>,
             inOrderB: Result<(), ThreadError>, inOrderA: Result<(), ThreadError>)
    ensures closeA == Failure(IllegalState(WrongContextOrder)) && left == 1
    ensures closeB == Failure(IllegalState(WrongContextOrder))
    ensures inOrderB.Success? && inOrderA.Success?
  {
    var s := new ThreadStack<ContextImpl>();
    var a := new ContextImpl(tracker, 1, s);
    var b := new ContextImpl(tracker, 2, s);
    closeA := a.Close();
    left := |s.Items()|;
    closeB := b.Close();
    assert s.Items() == [];
    var a2 := new ContextImpl(tracker, 1, s);
    var b2 := new ContextImpl(tracker, 2, s);
    assert s.Items() == [b2, a2];
    inOrderB := b2.Close();
    inOrderA := a2.Close();
  }
}
