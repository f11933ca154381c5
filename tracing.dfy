/** The explicit tracing API: a client hands out analyses, an analysis
    starts root traces, a trace starts child traces and sends data, labels
    and its end (`client/GrablTracing.java`). Two implementations exist:
    the standard one, which turns every call into exactly one frame on the
    client's one `TraceStream` (`client/FactoryTracingStandard.java`,
    `client/GrablTracingStandard.java`), and the inert singleton one
    (`client/GrablTracingNoOp.java`).

    Randomness and the clock are inputs: each call that starts a trace is
    given the id `UUID.randomUUID` would have produced, assumed fresh for
    the client, and each call that stamps a time is given the time. */
module Tracing {
  import opened Wrappers
  import opened UuidCodec
  import opened TraceStreams
  import ProtocolUuidUtil

  /** How a facade call can fail: `requireNonNull` throws a
      `NullPointerException` with its message; the stream throws what it
      buffered; decoding the analysis id can overflow. */
  datatype Failure = NullPointer(message: string) | StreamError(ex: Raised) | IdOverflow

  /** The outcome a facade call reports, as the stream saw it. */
  function OutcomeOf<T>(r: Result<T, Failure>): (o: Outcome)
    ensures o.Thrown? <==> r.Failure? && r.error.StreamError?
  {
    if r.Failure? && r.error.StreamError? then Thrown(r.error.ex) else Normal
  }

  /** Where a trace hangs in its tree. Not a field of the source's object:
      it records how the object was made, so the tree can be talked about. */
  datatype Origin =
    | Root
    | ChildOf(parent: TraceImpl)
    | Continued(givenRoot: Uuid, givenParent: Uuid)

  /** A standard client: its one stream, and the ids handed out so far. */
  class StandardClient {
    const stream: TraceStream
    ghost var issued: set<Uuid>

    constructor ()
      ensures fresh(stream) && issued == {}
      ensures stream.sent == [] && stream.errors == [] && !stream.finished && !stream.outboundCompleted
    {
      stream := new TraceStream();
      issued := {};
    }

    /** `trace(rootId, parentId, name)`: continue a tree begun elsewhere.
        Null arguments are rejected, in order, before anything is sent. */
    method Trace(rootId: Option<Uuid>, parentId: Option<Uuid>, name: Option<string>,
                 newId: Uuid, now: Long) returns (r: Result<TraceImpl, Failure>)
      requires newId !in issued
      modifies this, stream
      ensures stream.finished == old(stream.finished)
      ensures rootId.None? ==> r == Failure(NullPointer("Cannot use null rootId"))
      ensures rootId.Some? && parentId.None? ==> r == Failure(NullPointer("Cannot use null traceId"))
      ensures rootId.Some? && parentId.Some? && name.None? ==> r == Failure(NullPointer("Cannot use null name"))
      ensures rootId.None? || parentId.None? || name.None? ==>
        unchanged(this) && unchanged(stream)
      ensures r.Success? <==> rootId.Some? && parentId.Some? && name.Some? && !old(stream.finished)
      ensures rootId.Some? && parentId.Some? && name.Some? ==>
        && issued == old(issued) + {newId}
        && SendStep(old(stream.sent), old(stream.finished), old(stream.errors), stream.sent, stream.errors,
                    ChildStart(Encode(Some(newId)), Encode(rootId), Encode(parentId), name.value, now),
                    OutcomeOf(r))
        && (r.Success? ==> fresh(r.value) && r.value.client == this &&
                           Started(r.value, newId, rootId.value, Continued(rootId.value, parentId.value)))
    {
      if rootId.None? {
        return Failure(NullPointer("Cannot use null rootId"));
      }
      if parentId.None? {
        return Failure(NullPointer("Cannot use null traceId"));
      }
      if name.None? {
        return Failure(NullPointer("Cannot use null name"));
      }
      r := StartChild(this, rootId.value, parentId.value, name.value, newId, now,
                      Continued(rootId.value, parentId.value), 0);
    }

    /** `analysis(owner, repo, commit, analysisName)` of the standard
        client with a `long` analysis id; `created` is what the backend's
        blocking create call answered. */
    method Analysis(owner: Option<string>, repo: Option<string>, commit: Option<string>,
                    analysisName: Option<string>, created: Long) returns (r: Result<AnalysisImpl, Failure>)
      ensures owner.None? ==> r == Failure(NullPointer("Cannot use null owner"))
      ensures owner.Some? && repo.None? ==> r == Failure(NullPointer("Cannot use null repo"))
      ensures owner.Some? && repo.Some? && commit.None? ==> r == Failure(NullPointer("Cannot use null commit"))
      ensures owner.Some? && repo.Some? && commit.Some? && analysisName.None? ==>
        r == Failure(NullPointer("Cannot use null analysis name"))
      ensures r.Success? <==> owner.Some? && repo.Some? && commit.Some? && analysisName.Some?
      ensures r.Success? ==> fresh(r.value) && r.value.client == this && r.value.analysisId == LongId(created)
    {
      if owner.None? {
        return Failure(NullPointer("Cannot use null owner"));
      }
      if repo.None? {
        return Failure(NullPointer("Cannot use null repo"));
      }
      if commit.None? {
        return Failure(NullPointer("Cannot use null commit"));
      }
      if analysisName.None? {
        return Failure(NullPointer("Cannot use null analysis name"));
      }
      var a := new AnalysisImpl(this, LongId(created));
      r := Success(a);
    }

    /** `analysis(owner, repo, commit)` of the standard client with a UUID
        analysis id, decoded from the bytes the create call answered. */
    method UuidAnalysis(owner: Option<string>, repo: Option<string>, commit: Option<string>,
                        created: Option<seq<byte>>) returns (r: Result<AnalysisImpl, Failure>)
      ensures owner.None? ==> r == Failure(NullPointer("Cannot use null owner"))
      ensures owner.Some? && repo.None? ==> r == Failure(NullPointer("Cannot use null repo"))
      ensures owner.Some? && repo.Some? && commit.None? ==> r == Failure(NullPointer("Cannot use null commit"))
      ensures owner.Some? && repo.Some? && commit.Some? ==>
        match Decode(created)
        case Success(u) => r.Success? && fresh(r.value) && r.value.client == this && r.value.analysisId == UuidId(u)
        case Failure(_) => r == Failure(IdOverflow)
    {
      if owner.None? {
        return Failure(NullPointer("Cannot use null owner"));
      }
      if repo.None? {
        return Failure(NullPointer("Cannot use null repo"));
      }
      if commit.None? {
        return Failure(NullPointer("Cannot use null commit"));
      }
      var id := ProtocolUuidUtil.FromBuf(created);
      if id.Failure? {
        return Failure(IdOverflow);
      }
      var a := new AnalysisImpl(this, UuidId(id.value));
      r := Success(a);
    }

    /** `close`: closes the stream first; the channel shutdown that follows
        is not part of this model, and is not reached when the stream's
        close throws. */
    method Close(reply: Reply) returns (r: Outcome)
      modifies stream
      ensures stream.outboundCompleted && stream.sent == old(stream.sent) && stream.errors == []
      ensures stream.finished == (old(stream.finished) || !reply.TimedOut?)
      ensures r == Aggregate(if !old(stream.finished) && reply.Errored? then old(stream.errors) + [reply.error]
                             else old(stream.errors))
    {
      r := stream.Close(reply);
    }
  }

  /** The trace object `t` was just made with id `id`, root id `rootId`,
      at place `origin` in its tree. */
  ghost predicate Started(t: TraceImpl, id: Uuid, rootId: Uuid, origin: Origin)
  {
    t.id == id && t.rootId == rootId && t.origin == origin && t.WellFormed()
  }

  /** The standard `AnalysisImpl`: the analysis id and the client whose
      stream its traces use. */
  class AnalysisImpl {
    const client: StandardClient
    const analysisId: AnalysisId

    constructor (client: StandardClient, analysisId: AnalysisId)
      ensures this.client == client && this.analysisId == analysisId
    {
      this.client := client;
      this.analysisId := analysisId;
    }

    /** `Analysis.trace(name, tracker, iteration)`: begin a new tree, whose
        root has a fresh id equal to its root id. */
    method Trace(name: Option<string>, tracker: Option<string>, iteration: Int32, newId: Uuid, now: Long)
      returns (r: Result<TraceImpl, Failure>)
      requires newId !in client.issued
      modifies client, client.stream
      ensures client.stream.finished == old(client.stream.finished)
      ensures name.None? ==> r == Failure(NullPointer("Cannot use null name"))
      ensures name.Some? && tracker.None? ==> r == Failure(NullPointer("Cannot use null tracker"))
      ensures name.None? || tracker.None? ==> unchanged(client) && unchanged(client.stream)
      ensures r.Success? <==> name.Some? && tracker.Some? && !old(client.stream.finished)
      ensures name.Some? && tracker.Some? ==>
        && client.issued == old(client.issued) + {newId}
        && SendStep(old(client.stream.sent), old(client.stream.finished), old(client.stream.errors),
                    client.stream.sent, client.stream.errors,
                    RootStart(Encode(Some(newId)), analysisId, tracker.value, iteration, name.value, now),
                    OutcomeOf(r))
        && (r.Success? ==> fresh(r.value) && r.value.client == client && Started(r.value, newId, newId, Root))
    {
      if name.None? {
        return Failure(NullPointer("Cannot use null name"));
      }
      if tracker.None? {
        return Failure(NullPointer("Cannot use null tracker"));
      }
      r := StartRoot(client, analysisId, name.value, tracker.value, iteration, newId, now);
    }
  }

  /** The standard `TraceImpl`: a final id and root id, and the client
      whose stream it writes to. */
  class TraceImpl {
    const client: StandardClient
    const id: Uuid
    const rootId: Uuid
    ghost const origin: Origin
    ghost const depth: nat

    constructor (client: StandardClient, id: Uuid, rootId: Uuid, ghost origin: Origin, ghost depth: nat)
      ensures this.client == client && this.id == id && this.rootId == rootId
      ensures this.origin == origin && this.depth == depth
    {
      this.client := client;
      this.id := id;
      this.rootId := rootId;
      this.origin := origin;
      this.depth := depth;
    }

    /** How the tree is linked: a root is its own root; a child shares its
        parent's root and client and sits one level deeper; a continued
        trace takes the root it was given. */
    ghost predicate WellFormed()
      decreases depth
    {
      match origin
      case Root => rootId == id && depth == 0
      case Continued(given, _) => rootId == given && depth == 0
      case ChildOf(p) => p.depth < depth && p.WellFormed() && rootId == p.rootId && client == p.client
    }

    /** `getRootId`. */
    function GetRootId(): (r: Uuid)
      requires WellFormed()
      ensures origin.Root? ==> r == GetId()
      ensures origin.ChildOf? ==> r == origin.parent.rootId
      ensures r == TreeRoot(this)
    {
      RootIdIsTreeRoot(this);
      rootId
    }

    /** `getId`. */
    function GetId(): (r: Uuid)
    {
      id
    }

    /** `trace(name)`: begin a child of this trace. */
    method Trace(name: Option<string>, newId: Uuid, now: Long) returns (r: Result<TraceImpl, Failure>)
      requires WellFormed()
      requires newId !in client.issued
      modifies client, client.stream
      ensures client.stream.finished == old(client.stream.finished)
      ensures name.None? ==>
        r == Failure(NullPointer("Cannot use null name")) && unchanged(client) && unchanged(client.stream)
      ensures r.Success? <==> name.Some? && !old(client.stream.finished)
      ensures name.Some? ==>
        && client.issued == old(client.issued) + {newId}
        && SendStep(old(client.stream.sent), old(client.stream.finished), old(client.stream.errors),
                    client.stream.sent, client.stream.errors,
                    ChildStart(Encode(Some(newId)), Encode(Some(rootId)), Encode(Some(id)), name.value, now),
                    OutcomeOf(r))
        && (r.Success? ==> fresh(r.value) && Started(r.value, newId, rootId, ChildOf(this)) && r.value.client == client)
    {
      if name.None? {
        return Failure(NullPointer("Cannot use null name"));
      }
      r := StartChild(client, rootId, id, name.value, newId, now, ChildOf(this), depth + 1);
    }

    /** `data(data)`: one data frame tagged with this trace; returns this. */
    method Data(data: Option<string>) returns (r: Result<TraceImpl, Failure>)
      modifies client.stream
      ensures client.stream.finished == old(client.stream.finished)
      ensures data.None? ==> r == Failure(NullPointer("Cannot use null data")) && unchanged(client.stream)
      ensures r.Success? <==> data.Some? && !old(client.stream.finished)
      ensures data.Some? ==>
        SendStep(old(client.stream.sent), old(client.stream.finished), old(client.stream.errors),
                 client.stream.sent, client.stream.errors,
                 TraceStreams.Data(Encode(Some(id)), Encode(Some(rootId)), data.value), OutcomeOf(r))
      ensures r.Success? ==> r.value == this
    {
      if data.None? {
        return Failure(NullPointer("Cannot use null data"));
      }
      var o := client.stream.TraceData(rootId, id, data.value);
      r := if o.Normal? then Success(this) else Failure(StreamError(o.ex));
    }

    /** `labels(labels...)`: one labels frame, labels in order; returns
        this. Repeated calls each add a frame. */
    method Labels(labels: seq<string>) returns (r: Result<TraceImpl, Failure>)
      modifies client.stream
      ensures client.stream.finished == old(client.stream.finished)
      ensures SendStep(old(client.stream.sent), old(client.stream.finished), old(client.stream.errors),
                       client.stream.sent, client.stream.errors,
                       TraceStreams.Labels(Encode(Some(id)), Encode(Some(rootId)), labels), OutcomeOf(r))
      ensures r.Success? ==> r.value == this
      ensures r.Failure? ==> r.error.StreamError?
      ensures r.Success? <==> !old(client.stream.finished)
    {
      var o := client.stream.TraceLabels(rootId, id, labels);
      r := if o.Normal? then Success(this) else Failure(StreamError(o.ex));
    }

    /** `end()`: one end frame stamped `now`; returns this. */
    method End(now: Long) returns (r: Result<TraceImpl, Failure>)
      modifies client.stream
      ensures client.stream.finished == old(client.stream.finished)
      ensures SendStep(old(client.stream.sent), old(client.stream.finished), old(client.stream.errors),
                       client.stream.sent, client.stream.errors,
                       TraceStreams.End(Encode(Some(id)), Encode(Some(rootId)), now), OutcomeOf(r))
      ensures r.Success? ==> r.value == this
      ensures r.Failure? ==> r.error.StreamError?
      ensures r.Success? <==> !old(client.stream.finished)
    {
      var o := client.stream.TraceEnd(rootId, id, now);
      r := if o.Normal? then Success(this) else Failure(StreamError(o.ex));
    }
  }

  /** The root constructor of `TraceImpl`: take the fresh id as both id and
      root id, and send the root-start frame. */
  method StartRoot(client: StandardClient, analysisId: AnalysisId, name: string, tracker: string,
                   iteration: Int32, newId: Uuid, now: Long) returns (r: Result<TraceImpl, Failure>)
    requires newId !in client.issued
    modifies client, client.stream
    ensures client.stream.finished == old(client.stream.finished)
    ensures client.issued == old(client.issued) + {newId}
    ensures SendStep(old(client.stream.sent), old(client.stream.finished), old(client.stream.errors),
                     client.stream.sent, client.stream.errors,
                     RootStart(Encode(Some(newId)), analysisId, tracker, iteration, name, now), OutcomeOf(r))
    ensures r.Success? ==> fresh(r.value) && Started(r.value, newId, newId, Root) && r.value.client == client
    ensures r.Failure? ==> r.error.StreamError?
    ensures r.Success? <==> !old(client.stream.finished)
  {
    client.issued := client.issued + {newId};
    var o := client.stream.TraceRootStart(newId, analysisId, name, tracker, iteration, now);
    if o.Thrown? {
      return Failure(StreamError(o.ex));
    }
    var t := new TraceImpl(client, newId, newId, Root, 0);
    r := Success(t);
  }

  /** The child constructor of `TraceImpl`: keep the given root id, take a
      fresh id, and send the child-start frame naming the parent. */
  method StartChild(client: StandardClient, rootId: Uuid, parentId: Uuid, name: string,
                    newId: Uuid, now: Long, ghost origin: Origin, ghost depth: nat)
    returns (r: Result<TraceImpl, Failure>)
    requires newId !in client.issued
    requires match origin
             case Root => false
             case Continued(given, _) => given == rootId && depth == 0
             case ChildOf(p) => p.WellFormed() && p.rootId == rootId && p.depth < depth && p.client == client
    modifies client, client.stream
    ensures client.stream.finished == old(client.stream.finished)
    ensures client.issued == old(client.issued) + {newId}
    ensures SendStep(old(client.stream.sent), old(client.stream.finished), old(client.stream.errors),
                     client.stream.sent, client.stream.errors,
                     ChildStart(Encode(Some(newId)), Encode(Some(rootId)), Encode(Some(parentId)), name, now),
                     OutcomeOf(r))
    ensures r.Success? ==> fresh(r.value) && Started(r.value, newId, rootId, origin) && r.value.client == client
    ensures r.Failure? ==> r.error.StreamError?
    ensures r.Success? <==> !old(client.stream.finished)
  {
    client.issued := client.issued + {newId};
    var o := client.stream.TraceChildStart(rootId, newId, parentId, name, now);
    if o.Thrown? {
      return Failure(StreamError(o.ex));
    }
    var t := new TraceImpl(client, newId, rootId, origin, depth);
    r := Success(t);
  }

  /** The root of the tree a well-formed trace belongs to. */
  ghost function TreeRoot(t: TraceImpl): Uuid
    requires t.WellFormed()
    decreases t.depth
  {
    match t.origin
    case Root => t.id
    case Continued(given, _) => given
    case ChildOf(p) => TreeRoot(p)
  }

  /** Every descendant carries the id of its ultimate root as its root id. */
  lemma {:induction false} RootIdIsTreeRoot(t: TraceImpl)
    requires t.WellFormed()
    ensures t.rootId == TreeRoot(t)
    decreases t.depth
  {
    match t.origin
    case Root =>
    case Continued(_, _) =>
    case ChildOf(p) => RootIdIsTreeRoot(p);
  }
}
