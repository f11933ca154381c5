/** The outbound half of one analysis' bidirectional tracing stream, and
    its deferred error surfacing (`client/TraceStream.java`).

    Every trace event becomes one request frame, appended in call order to
    the one outbound sequence. The receive side only ever reports "stream
    completed" or "stream errored"; those callbacks fill an error buffer
    and count a latch down, and the NEXT call on the sending side raises
    what was buffered as one exception: the oldest error is its cause and
    the rest are suppressed causes, in arrival order. Here the receive
    callbacks are ordinary methods that a caller interleaves with sends. */
module TraceStreams {
  import opened Wrappers
  import opened UuidCodec
  import ProtocolUuidUtil

  /** A Java `int`. */
  type Int32 = x: int | -0x8000_0000 <= x < 0x8000_0000

  /** The id the backend gave the analysis. The variants disagree on its
      type (a `long`, or a UUID decoded from bytes); it is never inspected,
      only forwarded. */
  datatype AnalysisId = LongId(value: Long) | UuidId(uuid: Uuid)

  /** One `Trace.Req`. Ids are carried in their 16-byte wire form. A field
      the builder never sets is absent from the frame (so a root-start
      frame has no root id). */
  datatype Frame =
    | RootStart(id: seq<byte>, analysisId: AnalysisId, tracker: string, iteration: Int32,
                name: string, started: Long)
    | ChildStart(id: seq<byte>, rootId: seq<byte>, parentId: seq<byte>, name: string, started: Long)
    | Data(id: seq<byte>, rootId: seq<byte>, data: string)
    | Labels(id: seq<byte>, rootId: seq<byte>, labels: seq<string>)
    | End(id: seq<byte>, rootId: seq<byte>, ended: Long)

  /** An error buffered from the receive side, or the "Connection Lost"
      error that a send adds when it finds the stream finished. */
  datatype Throwable = ConnectionLost | Remote(description: string)

  /** A `RuntimeException` whose cause is `cause`, with `suppressed` added
      as suppressed exceptions in that order. */
  datatype Raised = Raised(cause: Throwable, suppressed: seq<Throwable>)

  /** How a call on the sending side ended. */
  datatype Outcome = Normal | Thrown(ex: Raised)

  /** What happens while `close` waits on the latch: the backend completes
      the stream, errors it, or the one-minute wait runs out. */
  datatype Reply = Acknowledged | Errored(error: Throwable) | TimedOut

  /** The exception `throwErrors` raises for a buffer: nothing for an empty
      buffer; otherwise the oldest error as cause and every later error,
      in order, as suppressed. */
  function Aggregate(errors: seq<Throwable>): (r: Outcome)
    ensures r.Normal? <==> errors == []
    ensures r.Thrown? ==> [r.ex.cause] + r.ex.suppressed == errors
  {
    if errors == [] then Normal else Thrown(Raised(errors[0], errors[1..]))
  }

  /** What a send raises once the stream has finished: the buffered errors
      with "Connection Lost" appended last. */
  function LostConnection(errors: seq<Throwable>): (r: Outcome)
    ensures r.Thrown?
    ensures r.ex.cause == if errors == [] then ConnectionLost else errors[0]
    ensures r.ex.suppressed == if errors == [] then [] else errors[1..] + [ConnectionLost]
  {
    Aggregate(errors + [ConnectionLost])
  }

  /** One send as the caller sees it: while the latch is up the frame is
      appended and nothing is thrown; once it is down, nothing is sent,
      the buffer is drained and "Connection Lost" is raised with it. */
  ghost predicate SendStep(sent0: seq<Frame>, finished0: bool, errors0: seq<Throwable>,
                           sent1: seq<Frame>, errors1: seq<Throwable>, f: Frame, r: Outcome)
  {
    && (!finished0 ==> r == Normal && sent1 == sent0 + [f] && errors1 == errors0)
    && (finished0 ==> r == LostConnection(errors0) && sent1 == sent0 && errors1 == [])
  }

  class TraceStream {
    /** Every frame handed to the request observer, in order. */
    var sent: seq<Frame>
    /** Whether the request observer has been told the stream is complete. */
    var outboundCompleted: bool
    /** Whether the finish latch has reached zero. */
    var finished: bool
    /** The error deque, oldest first. */
    var errors: seq<Throwable>

    /** Errors are only ever buffered together with the latch count-down,
        so a non-empty buffer means the stream has finished. */
    ghost predicate Valid()
      reads this
    {
      errors != [] ==> finished
    }

    constructor ()
      ensures Valid()
      ensures sent == [] && errors == [] && !finished && !outboundCompleted
    {
      sent := [];
      errors := [];
      finished := false;
      outboundCompleted := false;
    }

    /** `throwErrors`: drain the whole buffer into one exception. */
    method ThrowErrors() returns (r: Outcome)
      modifies this
      ensures Valid()
      ensures r == Aggregate(old(errors))
      ensures errors == []
      ensures sent == old(sent) && finished == old(finished) && outboundCompleted == old(outboundCompleted)
    {
      if errors == [] {
        return Normal;
      }
      var primary := errors[0];
      errors := errors[1..];
      var suppressed: seq<Throwable> := [];
      while errors != []
        invariant [primary] + suppressed + errors == old(errors)
        invariant sent == old(sent) && finished == old(finished)
        invariant outboundCompleted == old(outboundCompleted)
        decreases |errors|
      {
        suppressed := suppressed + [errors[0]];
        errors := errors[1..];
      }
      r := Thrown(Raised(primary, suppressed));
    }

    /** `ensureConnection`: once the latch is at zero, add "Connection
        Lost" and raise everything buffered; otherwise do nothing. */
    method EnsureConnection() returns (r: Outcome)
      modifies this
      ensures old(Valid()) ==> Valid()
      ensures !old(finished) ==> r == Normal && errors == old(errors)
      ensures old(finished) ==> r == LostConnection(old(errors)) && errors == []
      ensures sent == old(sent) && finished == old(finished) && outboundCompleted == old(outboundCompleted)
    {
      r := Normal;
      if finished {
        errors := errors + [ConnectionLost];
        r := ThrowErrors();
      }
    }

    /** `traceRootStart`: the frame carries the id, the analysis, tracker,
        iteration, name and start time, and no root id. */
    method TraceRootStart(traceId: Uuid, analysisId: AnalysisId, name: string, tracker: string,
                          iteration: Int32, startMillis: Long) returns (r: Outcome)
      modifies this
      ensures old(Valid()) ==> Valid()
      ensures SendStep(old(sent), old(finished), old(errors), sent, errors,
                       RootStart(Encode(Some(traceId)), analysisId, tracker, iteration, name, startMillis), r)
      ensures finished == old(finished) && outboundCompleted == old(outboundCompleted)
    {
      r := EnsureConnection();
      if r.Normal? {
        var id := ProtocolUuidUtil.ToBuf(Some(traceId));
        sent := sent + [RootStart(id, analysisId, tracker, iteration, name, startMillis)];
      }
    }

    /** `traceChildStart`: id, root id, parent id, name and start time. */
    method TraceChildStart(rootId: Uuid, traceId: Uuid, parentId: Uuid, name: string,
                           startMillis: Long) returns (r: Outcome)
      modifies this
      ensures old(Valid()) ==> Valid()
      ensures SendStep(old(sent), old(finished), old(errors), sent, errors,
                       ChildStart(Encode(Some(traceId)), Encode(Some(rootId)),
                                        Encode(Some(parentId)), name, startMillis), r)
      ensures finished == old(finished) && outboundCompleted == old(outboundCompleted)
    {
      r := EnsureConnection();
      if r.Normal? {
        var id := ProtocolUuidUtil.ToBuf(Some(traceId));
        var root := ProtocolUuidUtil.ToBuf(Some(rootId));
        var parent := ProtocolUuidUtil.ToBuf(Some(parentId));
        sent := sent + [ChildStart(id, root, parent, name, startMillis)];
      }
    }

    /** `traceData`: id, root id and the data. */
    method TraceData(rootId: Uuid, traceId: Uuid, data: string) returns (r: Outcome)
      modifies this
      ensures old(Valid()) ==> Valid()
      ensures SendStep(old(sent), old(finished), old(errors), sent, errors,
                       Data(Encode(Some(traceId)), Encode(Some(rootId)), data), r)
      ensures finished == old(finished) && outboundCompleted == old(outboundCompleted)
    {
      r := EnsureConnection();
      if r.Normal? {
        var id := ProtocolUuidUtil.ToBuf(Some(traceId));
        var root := ProtocolUuidUtil.ToBuf(Some(rootId));
        sent := sent + [Data(id, root, data)];
      }
    }

    /** `traceLabels`: id, root id and the labels in argument order. */
    method TraceLabels(rootId: Uuid, traceId: Uuid, labels: seq<string>) returns (r: Outcome)
      modifies this
      ensures old(Valid()) ==> Valid()
      ensures SendStep(old(sent), old(finished), old(errors), sent, errors,
                       Labels(Encode(Some(traceId)), Encode(Some(rootId)), labels), r)
      ensures finished == old(finished) && outboundCompleted == old(outboundCompleted)
    {
      r := EnsureConnection();
      if r.Normal? {
        var id := ProtocolUuidUtil.ToBuf(Some(traceId));
        var root := ProtocolUuidUtil.ToBuf(Some(rootId));
        sent := sent + [Labels(id, root, labels)];
      }
    }

    /** `traceEnd`: id, root id and the end time. */
    method TraceEnd(rootId: Uuid, traceId: Uuid, endMillis: Long) returns (r: Outcome)
      modifies this
      ensures old(Valid()) ==> Valid()
      ensures SendStep(old(sent), old(finished), old(errors), sent, errors,
                       End(Encode(Some(traceId)), Encode(Some(rootId)), endMillis), r)
      ensures finished == old(finished) && outboundCompleted == old(outboundCompleted)
    {
      r := EnsureConnection();
      if r.Normal? {
        var id := ProtocolUuidUtil.ToBuf(Some(traceId));
        var root := ProtocolUuidUtil.ToBuf(Some(rootId));
        sent := sent + [End(id, root, endMillis)];
      }
    }

    /** `TracingResponseObserver.onError`: buffer the error and count the
        latch down. */
    method OnError(e: Throwable)
      modifies this
      ensures Valid()
      ensures errors == old(errors) + [e] && finished
      ensures sent == old(sent) && outboundCompleted == old(outboundCompleted)
    {
      errors := errors + [e];
      finished := true;
    }

    /** `TracingResponseObserver.onCompleted`: count the latch down. */
    method OnCompleted()
      modifies this
      ensures Valid()
      ensures finished && errors == old(errors)
      ensures sent == old(sent) && outboundCompleted == old(outboundCompleted)
    {
      finished := true;
    }

    /** `close`: complete the outbound stream, wait for the latch (during
        which `reply` arrives, unless the latch is already at zero), then
        raise whatever is buffered. A timed-out wait is not an error in
        itself. */
    method Close(reply: Reply) returns (r: Outcome)
      modifies this
      ensures Valid()
      ensures outboundCompleted && sent == old(sent) && errors == []
      ensures finished == (old(finished) || !reply.TimedOut?)
      ensures r == Aggregate(if !old(finished) && reply.Errored? then old(errors) + [reply.error]
                             else old(errors))
    {
      outboundCompleted := true;
      if !finished {
        match reply
        case Acknowledged => OnCompleted();
        case Errored(e) => OnError(e);
        case TimedOut =>
      }
      r := ThrowErrors();
    }
  }

  // ---- Scenarios: what a caller of the stream observes ----

  /** An error from the receive side surfaces on the next send, with that
      error as cause and "Connection Lost" suppressed; the frame is not
      sent. */
  method ErrorSurfacesOnNextSend(e: Throwable, rootId: Uuid, traceId: Uuid, endMillis: Long)
    returns (r: Outcome, sent: seq<Frame>)
    ensures r == Thrown(Raised(e, [ConnectionLost]))
    ensures sent == []
  {
    var s := new TraceStream();
    s.OnError(e);
    r := s.TraceEnd(rootId, traceId, endMillis);
    sent := s.sent;
  }

  /** Once the latch is at zero, every later send throws, every time; the
      second one no longer repeats errors the first one drained. */
  method SendsFailAfterCompletion(e: Throwable, rootId: Uuid, traceId: Uuid, data: string)
    returns (first: Outcome, second: Outcome)
    ensures first == Thrown(Raised(e, [ConnectionLost]))
    ensures second == Thrown(Raised(ConnectionLost, []))
  {
    var s := new TraceStream();
    s.OnError(e);
    first := s.TraceData(rootId, traceId, data);
    second := s.TraceData(rootId, traceId, data);
  }

  /** Two errors buffered before `close` are both reported by it: the
      first as cause, the second suppressed. */
  method CloseReportsEveryError(e1: Throwable, e2: Throwable, reply: Reply) returns (r: Outcome)
    ensures r == Thrown(Raised(e1, [e2]))
  {
    var s := new TraceStream();
    s.OnError(e1);
    s.OnError(e2);
    r := s.Close(reply);
  }

  /** A close whose wait times out with nothing buffered returns normally. */
  method CloseAfterTimeoutIsSilent() returns (r: Outcome)
    ensures r == Normal
  {
    var s := new TraceStream();
    r := s.Close(TimedOut);
  }

  /** Errors that a failed send already raised are not raised again by
      `close`. */
  method DrainedErrorsAreNotRepeated(e: Throwable, rootId: Uuid, traceId: Uuid, endMillis: Long)
    returns (send: Outcome, close: Outcome)
    ensures send == Thrown(Raised(e, [ConnectionLost]))
    ensures close == Normal
  {
    var s := new TraceStream();
    s.OnError(e);
    send := s.TraceEnd(rootId, traceId, endMillis);
    close := s.Close(Acknowledged);
  }

  /** The five-frame session: a root, a child of it, the child's end, data
      on the root and the root's end all go out in call order, and `close`
      returns normally once the backend acknowledges. */
  method FiveFrameSession(u1: Uuid, u2: Uuid, analysis: AnalysisId, t0: Long, t1: Long, t2: Long, t3: Long)
    returns (frames: seq<Frame>, close: Outcome)
    ensures close == Normal
    ensures frames == [
      RootStart(Encode(Some(u1)), analysis, "eu:people", 1, "tx.session.open", t0),
      ChildStart(Encode(Some(u2)), Encode(Some(u1)), Encode(Some(u1)), "write_something", t1),
      End(Encode(Some(u2)), Encode(Some(u1)), t2),
      Data(Encode(Some(u1)), Encode(Some(u1)), "{\"my_json\":\"is_cool\"}"),
      End(Encode(Some(u1)), Encode(Some(u1)), t3)]
  {
    var s := new TraceStream();
    var r := s.TraceRootStart(u1, analysis, "tx.session.open", "eu:people", 1, t0);
    r := s.TraceChildStart(u1, u2, u1, "write_something", t1);
    r := s.TraceEnd(u1, u2, t2);
    r := s.TraceData(u1, u1, "{\"my_json\":\"is_cool\"}");
    r := s.TraceEnd(u1, u1, t3);
    close := s.Close(Acknowledged);
    frames := s.sent;
  }
}
