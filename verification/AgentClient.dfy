/** The agent's message handlers as it runs them, one envelope at a time:
    apps/agent/internal/communication/client.go. Its Docker service and its log service exist together or
    not at all (apps/agent/internal/app/app.go). */
module AgentClient {
  import opened Prelude
  import opened ContainerListed
  import opened Decode
  import opened Protocol
  import opened Gateway
  import opened Fleet
  import LogService

  /** What an agent writes in answer to one envelope. */
  function Written(ready: bool, i: Instruction, d: Docker): seq<AgentMessage> {
    match i
    case Command(action, name, r, container, _) => [ResultOf(ready, action, name, r, container, d)]
    case Inspect(r, container) => [InspectedOf(ready, r, container, d)]
    case List => if !ready then [Listed(PayloadJson([]))] else if d.listing.Some? then [Listed(d.listing.value)] else []
    case _ => []
  }

  /** The calls to Docker that one envelope leads to. */
  function Called(agent: string, ready: bool, i: Instruction, d: Docker): seq<DockerCall> {
    match i
    case Command(action, _, r, container, force) =>
      if Executes(ready, action, r, container)
      then [DockerCall(agent, r, CommandOrder(action.value, container, force), d.verdict)] else []
    case Inspect(r, container) =>
      if Examines(ready, r, container) then [DockerCall(agent, r, InspectOrder(container), d.verdict)] else []
    case _ => []
  }

  /** One message goes onto the lane of a socket, and no other lane changes. */
  ghost predicate Writes(w: World, v: World, s: SocketId, m: AgentMessage)
    requires s in w.links
  {
    && s in v.links && v.links[s].up == w.links[s].up + [m]
    && forall t :: t in w.links && t != s ==> t in v.links && v.links[t] == w.links[t]
  }

  lemma ExecuteWrites(w: World, s: SocketId, agent: string, ready: bool, action: Option<Action>, name: string, r: string,
                      container: string, force: bool, d: Docker)
    requires s in w.links
    ensures var v := Execute(w, s, agent, ready, action, name, r, container, force, d);
      Writes(w, v, s, ResultOf(ready, action, name, r, container, d))
      && v.calls == w.calls + Called(agent, ready, Command(action, name, r, container, force), d)
  {
    hide ResultOf;
    assert w.calls + [] == w.calls;
  }

  lemma ExamineWrites(w: World, s: SocketId, agent: string, ready: bool, r: string, container: string, d: Docker)
    requires s in w.links
    ensures var v := Examine(w, s, agent, ready, r, container, d);
      Writes(w, v, s, InspectedOf(ready, r, container, d)) && v.calls == w.calls + Called(agent, ready, Inspect(r, container), d)
  {
    hide InspectedOf;
    assert w.calls + [] == w.calls;
  }

  /** The agent of the fleet does the same: it adds these calls to the log and these messages to its lane. */
  lemma ObeyWrites(w: World, s: SocketId, agent: string, i: Instruction, d: Docker)
    requires s in w.links
    ensures var v := Obey(w, s, agent, i, d); var ready := agent in w.engines;
      && v.calls == w.calls + Called(agent, ready, i, d)
      && s in v.links && v.links[s].up == w.links[s].up + Written(ready, i, d)
      && forall t :: t in w.links && t != s ==> t in v.links && v.links[t] == w.links[t]
  {
    hide PayloadJson, ResultOf, InspectedOf, Executes, Examines, Execute, Examine;
    assert w.calls + [] == w.calls && w.links[s].up + [] == w.links[s].up;
    var ready := agent in w.engines;
    match i {
      case Command(action, name, r, container, force) => ExecuteWrites(w, s, agent, ready, action, name, r, container, force, d);
      case Inspect(r, container) => ExamineWrites(w, s, agent, ready, r, container, d);
      case _ =>
    }
  }

  /** How the wait for the acknowledgement ends. */
  datatype Registered = Accepted | Refused | ReadFailed

  class Client {
    const uuid: string
    const docker: bool
    const logs: LogService.Service?
    var conn: bool                       // a connection is set
    var written: seq<AgentMessage>       // to the connection
    var calls: seq<DockerCall>

    ghost predicate Valid() reads this, logs, if logs == null then {} else logs.streams.Values {
      (docker <==> logs != null) && (logs != null ==> logs.Valid() && logs.engine && logs.emitter)
    }

    constructor (uuid: string, docker: bool)
      ensures Valid() && !conn && written == [] && calls == [] && this.uuid == uuid && this.docker == docker
      ensures logs != null ==> fresh(logs) && logs.streams == map[]
    {
      this.uuid, this.docker, conn, written, calls := uuid, docker, false, [], [];
      var service: LogService.Service? := null;
      if docker {
        service := new LogService.Service(true);
        service.SetEmitter();
      }
      logs := service;
    }

    /** False: there is no connection, and the chunk is lost. */
    method EmitLogChunk(r: string, container: string, entries: seq<Entry>) returns (ok: bool)
      modifies this`written
      ensures ok <==> conn
      ensures written == old(written) + (if conn then [Chunk(ChunkPayload(r, container, Some(entries)))] else [])
    {
      if !conn { return false; }
      written := written + [Chunk(ChunkPayload(r, container, Some(entries)))];
      ok := true;
    }

    method HandleContainerCommand(kind: string, r: string, container: string, force: bool, d: Docker)
      requires HandlerOf(kind) == Commands
      modifies this`written, this`calls
      ensures var i := Command(DockerAction(kind), ActionFromType(kind), r, container, force);
        written == old(written) + Written(docker, i, d) && calls == old(calls) + Called(uuid, docker, i, d)
    {
      var action := ActionFromType(kind);
      if r == "" || container == "" {
        written := written + [Result(ResultPayload(r, action, container, false, Some("Invalid command payload"),
                                                   Some("requestId and containerId are required")))];
        return;
      }
      if !docker {
        written := written + [Result(ResultPayload(r, action, container, false, Some("Docker engine unavailable"),
                                                   Some("docker client is not initialized")))];
        return;
      }
      assert DockerAction(kind).Some?;
      var call := DockerAction(kind).value;
      calls := calls + [DockerCall(uuid, r, CommandOrder(call, container, force), d.verdict)];
      if !d.verdict.ok {
        written := written + [Result(ResultPayload(r, action, container, false, Some(action + " failed"), Some(d.verdict.error)))];
        return;
      }
      written := written + [Result(ResultPayload(r, action, container, true, Some(action + " succeeded"), None))];
    }

    method HandleContainerInspect(r: string, container: string, d: Docker)
      modifies this`written, this`calls
      ensures written == old(written) + Written(docker, Inspect(r, container), d)
      ensures calls == old(calls) + Called(uuid, docker, Inspect(r, container), d)
    {
      if r == "" || container == "" {
        written := written + [Inspected(InspectedPayload(r, None, false, Some("requestId and containerId are required")))];
        return;
      }
      if !docker {
        written := written + [Inspected(InspectedPayload(r, None, false, Some("Docker engine unavailable")))];
        return;
      }
      calls := calls + [DockerCall(uuid, r, InspectOrder(container), d.verdict)];
      if !d.verdict.ok {
        written := written + [Inspected(InspectedPayload(r, None, false, Some(d.verdict.error)))];
        return;
      }
      written := written + [Inspected(InspectedPayload(r, Some(d.verdict.details), true, None))];
    }

    method HandleContainerList(d: Docker)
      modifies this`written
      ensures written == old(written) + Written(docker, List, d)
    {
      if !docker {
        written := written + [Listed(PayloadJson([]))];
      } else if d.listing.Some? {
        written := written + [Listed(d.listing.value)];
      }
    }

    /** A subscription that succeeds leaves exactly one open stream under the id, opened with the container, the
        tail and the follow asked for; one that is refused for want of an id or a container leaves the streams
        alone. */
    method HandleLogsSubscribe(r: string, container: string, tail: int, follow: Option<bool>, d: Docker) returns (ok: bool)
      requires Valid()
      modifies logs, if logs == null then {} else logs.streams.Values
      ensures Valid() && (ok <==> r != "" && container != "" && docker && d.opens)
      ensures ok ==> r in logs.streams && !logs.streams[r].closed && logs.streams[r].containerId == container
      ensures ok ==> logs.streams[r].tail == EffectiveTail(tail) && logs.streams[r].follow == (follow != Some(false))
      ensures logs != null && (r == "" || container == "") ==> logs.streams == old(logs.streams)
      ensures logs != null ==> forall id :: id in old(logs.streams) && id != r ==>
        id in logs.streams && logs.streams[id] == old(logs.streams)[id]
    {
      if r == "" || container == "" || logs == null {
        return false;
      }
      var following := true;
      if follow.Some? {
        following := follow.value;
      }
      var lines := if tail <= 0 then 100 else tail;
      ok := logs.Subscribe(r, container, lines, following, d.opens);
    }

    method HandleLogsUnsubscribe(r: string)
      requires Valid()
      modifies logs, if logs == null then {} else logs.streams.Values
      ensures Valid()
      ensures logs != null && r != "" ==> logs.streams == old(logs.streams) - {r}
      ensures logs != null && r in old(logs.streams) && r != "" ==> old(logs.streams)[r].closed
    {
      if logs != null {
        var ok := logs.Unsubscribe(r);
      }
    }

    /** One envelope: what is written and what is called are what the envelope, read, asks for. */
    method HandleServerMessage(e: Envelope, d: Docker)
      requires Valid()
      modifies this`written, this`calls, logs, if logs == null then {} else logs.streams.Values
      ensures Valid()
      ensures written == old(written) + Written(docker, Read(e), d)
      ensures calls == old(calls) + Called(uuid, docker, Read(e), d)
      ensures logs != null ==>
        match Read(e)
        case Subscribe(r, container, tail, follow) =>
          r != "" && container != "" && d.opens ==>
            r in logs.streams && !logs.streams[r].closed && logs.streams[r].containerId == container
            && logs.streams[r].tail == tail && logs.streams[r].follow == follow
        case Unsubscribe(r) => r != "" ==> logs.streams == old(logs.streams) - {r}
        case _ => logs.streams == old(logs.streams)
    {
      hide PayloadJson, ResultOf, InspectedOf, Executes, Examines;
      match (HandlerOf(e.kind), e.payload) {
        case (Lists, _) => HandleContainerList(d);
        case (Commands, Target(r, container, force)) => HandleContainerCommand(e.kind, r, container, force == Some(true), d);
        case (Inspects, Target(r, container, _)) => HandleContainerInspect(r, container, d);
        case (Subscribes, Subscription(r, container, tail, follow)) => var ok := HandleLogsSubscribe(r, container, tail, follow, d);
        case (Unsubscribes, Cancellation(r)) => HandleLogsUnsubscribe(r);
        case _ =>
      }
    }

    /** waitRegistered, over the messages that arrive before reading fails: because the connection closes, or at
        the deadline. Everything before the first acknowledgement is dropped. */
    method WaitRegistered(inbox: seq<Envelope>) returns (taken: nat, outcome: Registered)
      ensures taken <= |inbox|
      ensures forall k :: 0 <= k < taken ==> (Read(inbox[k]).Acknowledge? <==> k == taken - 1 && !outcome.ReadFailed?)
      ensures outcome.ReadFailed? ==> taken == |inbox|
      ensures !outcome.ReadFailed? ==> taken > 0 && (outcome.Refused? <==> Read(inbox[taken - 1]).fails)
    {
      hide Read;
      taken := 0;
      while taken < |inbox|
        invariant taken <= |inbox|
        invariant forall k :: 0 <= k < taken ==> !Read(inbox[k]).Acknowledge?
      {
        var i := Read(inbox[taken]);
        taken := taken + 1;
        if i.Acknowledge? {
          return taken, if i.fails then Refused else Accepted;
        }
      }
      outcome := ReadFailed;
    }

    /** What ends with the session: its streams, and its connection. */
    method EndSession()
      requires Valid()
      modifies this`conn, logs, if logs == null then {} else logs.streams.Values
      ensures Valid() && !conn
      ensures logs != null ==> logs.streams == map[]
      ensures logs != null ==> forall id :: id in old(logs.streams) ==>
        old(logs.streams)[id].closed && old(logs.streams)[id].readerCloses == 1
    {
      if logs != null {
        logs.UnsubscribeAll();
      }
      conn := false;
    }
  }
}
