/** Server and agents together: the gateway, a FIFO lane each way per WebSocket that either end can lose, and
    each agent's session loop with its calls to Docker
    (apps/agent/internal/communication/client.go). */
module Fleet {
  import opened Prelude
  import opened ContainerListed
  import opened Decode
  import Batching
  import opened Protocol
  import opened Gateway

  /** A WebSocket. What the server sends is in the gateway's record of the socket, and the agent has read the
      first `taken` of it; `up` is on its way to the server. `agentUp`: the agent's session is on it;
      `serverUp`: the server has not handled its disconnect. */
  datatype Link = Link(agent: string, serverUp: bool, agentUp: bool, registered: bool, taken: nat, up: seq<AgentMessage>)

  /** What Docker answers a call with: success, with the details of an inspected container, or an error's text. */
  datatype Verdict = Verdict(ok: bool, error: string, details: Json)

  /** A call that an agent made to its Docker for a request, and the answer. */
  datatype DockerCall = DockerCall(agent: string, request: string, order: Order, verdict: Verdict)

  /** What the agent did about a request: the call it made, if any, and its one reply. */
  datatype Answer = Answer(call: Option<nat>, reply: AgentMessage)

  /** A log stream opened for a request. `source`: what the decoder makes of Docker's bytes. */
  datatype LogStream = LogStream(agent: string, container: string, source: seq<Entry>, stream: Batching.Stream)

  datatype World = World(
    g: State,
    links: map<SocketId, Link>,
    sessions: map<string, SocketId>,     // each agent's current connection
    engines: set<string>,                // the agents that have Docker
    calls: seq<DockerCall>,
    answers: map<string, Answer>,
    streams: map<string, LogStream>)

  function AtRest(engines: set<string>): World { World(INITIAL, map[], map[], engines, [], map[], map[]) }

  /** Docker's side of one agent action. */
  datatype Docker = Docker(verdict: Verdict, listing: Option<Json>, opens: bool, source: seq<Entry>, ending: Ending)

  datatype Step =
    | Dials(agent: string, socket: SocketId)
    | Serves(event: Event)                        // a call into the gateway, a timer, or a socket closing
    | Notices(socket: SocketId)                   // the server handles the disconnect
    | Arrives(socket: SocketId)                   // a message reaches the gateway
    | Says(socket: SocketId, message: AgentMessage)
    | Takes(socket: SocketId, docker: Docker)     // the agent handles the next envelope
    | Loses(socket: SocketId)                     // the agent's session ends
    | Streams(request: string, move: Batching.Step)

  // ---------- the agent ----------

  function Speak(w: World, s: SocketId, m: AgentMessage): World {
    if s in w.links then w.(links := w.links[s := w.links[s].(up := w.links[s].up + [m])]) else w
  }

  function Reply(w: World, s: SocketId, r: string, call: Option<nat>, m: AgentMessage): World {
    Speak(w.(answers := w.answers[r := Answer(call, m)]), s, m)
  }

  function Calling(w: World, call: DockerCall): World { w.(calls := w.calls + [call]) }

  /** handleContainerCommand: whether it gets as far as Docker, and what it replies. */
  predicate Executes(ready: bool, action: Option<Action>, r: string, container: string) {
    r != "" && container != "" && ready && action.Some?
  }

  function ResultOf(ready: bool, action: Option<Action>, name: string, r: string, container: string, d: Docker): AgentMessage {
    if r == "" || container == "" then
      Result(ResultPayload(r, name, container, false, Some("Invalid command payload"),
                           Some("requestId and containerId are required")))
    else if !ready then
      Result(ResultPayload(r, name, container, false, Some("Docker engine unavailable"),
                           Some("docker client is not initialized")))
    else if action.None? then Result(ResultPayload(r, name, container, false, Some(name + " failed"), Some("unsupported action")))
    else if d.verdict.ok then Result(ResultPayload(r, name, container, true, Some(name + " succeeded"), None))
    else Result(ResultPayload(r, name, container, false, Some(name + " failed"), Some(d.verdict.error)))
  }

  /** A command that names no action fails without a call; the server sends none. */
  lemma UnsupportedFails(name: string, r: string, container: string, d: Docker)
    requires r != "" && container != ""
    ensures !Executes(true, None, r, container)
    ensures ResultOf(true, None, name, r, container, d)
      == Result(ResultPayload(r, name, container, false, Some(name + " failed"), Some("unsupported action")))
  {}

  function Execute(w: World, s: SocketId, agent: string, ready: bool, action: Option<Action>, name: string, r: string,
                   container: string, force: bool, d: Docker): World
  {
    var reply := ResultOf(ready, action, name, r, container, d);
    if Executes(ready, action, r, container)
    then Reply(Calling(w, DockerCall(agent, r, CommandOrder(action.value, container, force), d.verdict)), s, r, Some(|w.calls|), reply)
    else Reply(w, s, r, None, reply)
  }

  /** handleContainerInspect. */
  predicate Examines(ready: bool, r: string, container: string) { r != "" && container != "" && ready }

  function InspectedOf(ready: bool, r: string, container: string, d: Docker): AgentMessage {
    if r == "" || container == "" then
      Inspected(InspectedPayload(r, None, false, Some("requestId and containerId are required")))
    else if !ready then Inspected(InspectedPayload(r, None, false, Some("Docker engine unavailable")))
    else if d.verdict.ok then Inspected(InspectedPayload(r, Some(d.verdict.details), true, None))
    else Inspected(InspectedPayload(r, None, false, Some(d.verdict.error)))
  }

  function Examine(w: World, s: SocketId, agent: string, ready: bool, r: string, container: string, d: Docker): World {
    var reply := InspectedOf(ready, r, container, d);
    if Examines(ready, r, container)
    then Reply(Calling(w, DockerCall(agent, r, InspectOrder(container), d.verdict)), s, r, Some(|w.calls|), reply)
    else Reply(w, s, r, None, reply)
  }

  /** handleLogsSubscribe, as far as Service.Subscribe succeeds. */
  function OpenStream(w: World, agent: string, r: string, container: string, d: Docker): World {
    if r == "" || container == "" || agent !in w.engines || !d.opens then w
    else w.(streams := w.streams[r :=
      LogStream(agent, container, d.source, Batching.Open(Batching.DEFAULT_BATCH_SIZE, d.source, d.ending))])
  }

  /** handleContainerList. */
  function SendList(w: World, s: SocketId, ready: bool, d: Docker): World {
    if !ready then Speak(w, s, Listed(PayloadJson([])))
    else if d.listing.Some? then Speak(w, s, Listed(d.listing.value)) else w
  }

  /** handleServerMessage. An unsubscribe cancels a stream: streams can be cancelled at any time anyway. */
  function Obey(w: World, s: SocketId, agent: string, i: Instruction, d: Docker): World {
    var ready := agent in w.engines;
    match i
    case Command(action, name, r, container, force) => Execute(w, s, agent, ready, action, name, r, container, force, d)
    case Inspect(r, container) => Examine(w, s, agent, ready, r, container, d)
    case Subscribe(r, container, _, _) => OpenStream(w, agent, r, container, d)
    case List => SendList(w, s, ready, d)
    case _ => w
  }

  function HangUp(w: World, s: SocketId): World {
    if s !in w.links then w
    else w.(links := w.links[s := w.links[s].(agentUp := false)], sessions := w.sessions - {w.links[s].agent})
  }

  /** waitRegistered: anything but the acknowledgement is dropped, and one it fails on ends the session. */
  function AwaitRegistered(w: World, s: SocketId, i: Instruction): World {
    if s !in w.links || !i.Acknowledge? then w
    else if i.fails then HangUp(w, s)
    else w.(links := w.links[s := w.links[s].(registered := true)])
  }

  function Take(w: World, s: SocketId, d: Docker): World {
    if s !in w.links || s !in w.g.clients || w.links[s].taken >= |w.g.clients[s].sent| then w
    else
      var l := w.links[s];
      var i := Read(w.g.clients[s].sent[l.taken]);
      var k := w.(links := w.links[s := l.(taken := l.taken + 1)]);
      if l.registered then Obey(k, s, l.agent, i, d) else AwaitRegistered(k, s, i)
  }

  /** EmitLogChunk: the chunk goes to whatever connection the agent has by then, or is lost. */
  function Emit(w: World, r: string, ls: LogStream, chunk: seq<Entry>): World {
    if ls.agent in w.sessions
    then Speak(w, w.sessions[ls.agent], Chunk(ChunkPayload(r, ls.container, Some(chunk)))) else w
  }

  function MoveStream(w: World, r: string, move: Batching.Step): World {
    if r !in w.streams then w
    else
      var ls := w.streams[r];
      var next := Batching.Next(ls.stream, move);
      var k := w.(streams := w.streams[r := ls.(stream := next)]);
      if |next.work.handed| > |ls.stream.work.handed| then Emit(k, r, ls, next.work.handed[|ls.stream.work.handed|]) else k
  }

  // ---------- steps ----------

  function Arrive(w: World, s: SocketId): World {
    if s !in w.links || w.links[s].up == [] then w
    else w.(g := Next(w.g, Receives(s, w.links[s].up[0])), links := w.links[s := w.links[s].(up := w.links[s].up[1..])])
  }

  function NextWorld(w: World, step: Step): World {
    match step
    case Dials(agent, s) =>
      w.(g := Next(w.g, Connects(s)), links := w.links[s := Link(agent, true, true, false, 0, [])],
         sessions := w.sessions[agent := s])
    case Serves(e) => w.(g := Next(w.g, e))
    case Notices(s) =>
      if s !in w.links then w
      else w.(g := Next(w.g, Disconnects(s)), links := w.links[s := w.links[s].(serverUp := false)])
    case Arrives(s) => Arrive(w, s)
    case Says(s, m) => Speak(w, s, m)
    case Takes(s, d) => Take(w, s, d)
    case Loses(s) => HangUp(w, s)
    case Streams(r, move) => MoveStream(w, r, move)
  }

  /** What an agent says on its own accord: it registers and beats under its one uuid, and lists. */
  predicate Spontaneous(agent: string, m: AgentMessage) {
    match m
    case Register(uuid, _, _) => uuid == agent
    case Heartbeat(uuid) => uuid == agent
    case Listed(_) => true
    case Ignored => true
    case _ => false
  }

  predicate Internal(w: World, e: Event) {
    match e
    case Connects(_) => false
    case Disconnects(_) => false
    case Receives(_, _) => false
    case Registers(s, uuid, _) => s in w.links && uuid == w.links[s].agent
    case _ => Enabled(w.g, e)
  }

  ghost predicate Possible(w: World, step: Step) {
    match step
    case Dials(agent, s) => agent != "" && agent !in w.sessions && s !in w.g.clients && s !in w.links
    case Serves(e) => Internal(w, e)
    case Notices(s) => s in w.links && w.links[s].serverUp
    case Arrives(s) => s in w.links && w.links[s].serverUp && w.links[s].up != []
    case Says(s, m) => s in w.links && w.links[s].agentUp && Spontaneous(w.links[s].agent, m)
    case Takes(s, _) =>
      s in w.links && w.links[s].agentUp && s in w.g.clients && w.links[s].taken < |w.g.clients[s].sent|
    case Loses(s) => s in w.links && w.links[s].agentUp
    case Streams(r, move) => r in w.streams && Batching.Enabled(w.streams[r].stream, move)
  }

  ghost predicate Happens(w: World, steps: seq<Step>, v: World)
    decreases |steps|
  {
    if steps == [] then w == v
    else Possible(w, steps[0]) && Happens(NextWorld(w, steps[0]), steps[1..], v)
  }

  lemma {:induction false} HappensAppend(w: World, first: seq<Step>, m: World, second: seq<Step>, v: World)
    requires Happens(w, first, m) && Happens(m, second, v)
    ensures Happens(w, first + second, v)
    decreases |first|
  {
    hide Possible, NextWorld;
    if first == [] {
      assert first + second == second;
    } else {
      assert (first + second)[1..] == first[1..] + second;
      HappensAppend(NextWorld(w, first[0]), first[1..], m, second, v);
    }
  }

  /** All that an envelope changes besides the calls and the answers: the agent says at most one thing. */
  ghost predicate SaysOnly(w: World, v: World, s: SocketId, m: Option<AgentMessage>) {
    && v.links == (if m.Some? then Speak(w, s, m.value).links else w.links)
    && v.g == w.g && v.sessions == w.sessions && v.engines == w.engines
    && (m.Some? ==> m.value.Result? || m.value.Inspected? || m.value.Listed?)
  }

  lemma ReplySays(w: World, k: World, s: SocketId, r: string, call: Option<nat>, m: AgentMessage)
    requires k == w.(calls := k.calls) && (m.Result? || m.Inspected?)
    ensures SaysOnly(w, Reply(k, s, r, call, m), s, Some(m)) && Reply(k, s, r, call, m).streams == w.streams
  {}

  lemma ExecuteSays(w: World, s: SocketId, agent: string, ready: bool, action: Option<Action>, name: string, r: string,
                    container: string, force: bool, d: Docker)
    ensures var v := Execute(w, s, agent, ready, action, name, r, container, force, d);
      SaysOnly(w, v, s, Some(ResultOf(ready, action, name, r, container, d))) && v.streams == w.streams
  {
    hide SaysOnly, Reply;
    var reply := ResultOf(ready, action, name, r, container, d);
    if Executes(ready, action, r, container) {
      var call := DockerCall(agent, r, CommandOrder(action.value, container, force), d.verdict);
      ReplySays(w, Calling(w, call), s, r, Some(|w.calls|), reply);
    } else {
      ReplySays(w, w, s, r, None, reply);
    }
  }

  lemma ExamineSays(w: World, s: SocketId, agent: string, ready: bool, r: string, container: string, d: Docker)
    ensures var v := Examine(w, s, agent, ready, r, container, d);
      SaysOnly(w, v, s, Some(InspectedOf(ready, r, container, d))) && v.streams == w.streams
  {
    hide SaysOnly, Reply;
    var reply := InspectedOf(ready, r, container, d);
    if Examines(ready, r, container) {
      ReplySays(w, Calling(w, DockerCall(agent, r, InspectOrder(container), d.verdict)), s, r, Some(|w.calls|), reply);
    } else {
      ReplySays(w, w, s, r, None, reply);
    }
  }

  /** ...and opens at most the log stream it is asked for. */
  lemma ObeySays(w: World, s: SocketId, agent: string, i: Instruction, d: Docker) returns (m: Option<AgentMessage>)
    ensures var v := Obey(w, s, agent, i, d);
      SaysOnly(w, v, s, m)
      && v.streams == (if i.Subscribe? then OpenStream(w, agent, i.requestId, i.containerId, d).streams else w.streams)
  {
    hide PayloadJson, Execute, Examine, ResultOf, InspectedOf;
    var ready := agent in w.engines;
    match i {
      case Command(action, name, r, container, force) =>
        m := Some(ResultOf(ready, action, name, r, container, d));
        ExecuteSays(w, s, agent, ready, action, name, r, container, force, d);
      case Inspect(r, container) =>
        m := Some(InspectedOf(ready, r, container, d));
        ExamineSays(w, s, agent, ready, r, container, d);
      case List =>
        m := if !ready then Some(Listed(PayloadJson([]))) else if d.listing.Some? then Some(Listed(d.listing.value)) else None;
      case _ => m := None;
    }
  }
}
