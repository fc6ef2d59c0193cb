/** The messages between server and agent: the type strings of packages/protocol/src/container.ts and of
    apps/agent/internal/communication/client.go, and how either side turns an intent into one and back. */
module Protocol {
  import opened Prelude
  import opened ContainerListed
  import opened Decode

  datatype Action = Start | Stop | Restart | Remove | Pause | Unpause

  /** What an envelope to the agent carries. `force` is present only on container.remove; a malformed payload
      is one that does not parse as what its type promises. */
  datatype Payload =
    | Empty
    | Malformed
    | Registration(id: string, uuid: string, message: string)
    | Target(requestId: string, containerId: string, force: Option<bool>)
    | Subscription(requestId: string, containerId: string, tail: int, follow: Option<bool>)
    | Cancellation(requestId: string)

  datatype Envelope = Envelope(kind: string, payload: Payload)

  /** container.result, as it arrives: absent fields are None, and an absent requestId reads as "". */
  datatype ResultPayload = ResultPayload(requestId: string, action: string, containerId: string, ok: bool,
                                         message: Option<string>, error: Option<string>)

  datatype InspectedPayload = InspectedPayload(requestId: string, container: Option<Json>, ok: bool, error: Option<string>)

  /** logs.chunk; `entries` is None when it is not an array. */
  datatype ChunkPayload = ChunkPayload(requestId: string, containerId: string, entries: Option<seq<Entry>>)

  /** What the server understands from an agent. */
  datatype AgentMessage =
    | Garbled                                      // not JSON
    | Register(uuid: string, hostname: string, os: string)
    | Heartbeat(uuid: string)
    | Listed(listing: Json)
    | Result(result: ResultPayload)
    | Inspected(inspected: InspectedPayload)
    | Chunk(chunk: ChunkPayload)
    | Ignored                                      // metrics, unknown types and non-envelopes

  // ---------- the server's side ----------

  function Name(action: Action): string {
    match action
    case Start => "start"
    case Stop => "stop"
    case Restart => "restart"
    case Remove => "remove"
    case Pause => "pause"
    case Unpause => "unpause"
  }

  /** COMMAND_TYPE of the gateway. */
  function CommandType(action: Action): string {
    match action
    case Start => "container.start"
    case Stop => "container.stop"
    case Restart => "container.restart"
    case Remove => "container.remove"
    case Pause => "container.pause"
    case Unpause => "container.unpause"
  }

  function CommandEnvelope(action: Action, requestId: string, containerId: string, force: bool): Envelope {
    Envelope(CommandType(action), Target(requestId, containerId, if action.Remove? then Some(force) else None))
  }

  function InspectEnvelope(requestId: string, containerId: string): Envelope {
    Envelope("container.inspect", Target(requestId, containerId, None))
  }

  function SubscribeEnvelope(requestId: string, containerId: string, tail: int, follow: bool): Envelope {
    Envelope("logs.subscribe", Subscription(requestId, containerId, tail, Some(follow)))
  }

  function UnsubscribeEnvelope(requestId: string): Envelope {
    Envelope("logs.unsubscribe", Cancellation(requestId))
  }

  function ListEnvelope(): Envelope { Envelope("container.list", Empty) }

  function RegisteredEnvelope(id: string, uuid: string, message: string): Envelope {
    Envelope("agent.registered", Registration(id, uuid, message))
  }

  // ---------- the agent's side ----------

  /** handleServerMessage: which handler a type string selects. */
  datatype Handler = Lists | Commands | Subscribes | Unsubscribes | Acknowledges | Inspects | Warns

  function HandlerOf(kind: string): Handler {
    if kind == "container.list" then Lists
    else if kind == "container.start" || kind == "container.stop" || kind == "container.restart"
            || kind == "container.remove" || kind == "container.pause" || kind == "container.unpause" then Commands
    else if kind == "logs.subscribe" then Subscribes
    else if kind == "logs.unsubscribe" then Unsubscribes
    else if kind == "agent.registered" then Acknowledges
    else if kind == "container.inspect" then Inspects
    else Warns
  }

  /** actionFromType: the action a result reports. */
  function ActionFromType(kind: string): string {
    if kind == "container.start" then "start"
    else if kind == "container.stop" then "stop"
    else if kind == "container.restart" then "restart"
    else if kind == "container.remove" then "remove"
    else if kind == "container.pause" then "pause"
    else if kind == "container.unpause" then "unpause"
    else "unknown"
  }

  /** The switch of handleContainerCommand: the Docker call a type string leads to. */
  function DockerAction(kind: string): Option<Action> {
    if kind == "container.start" then Some(Start)
    else if kind == "container.stop" then Some(Stop)
    else if kind == "container.restart" then Some(Restart)
    else if kind == "container.remove" then Some(Remove)
    else if kind == "container.pause" then Some(Pause)
    else if kind == "container.unpause" then Some(Unpause)
    else None
  }

  /** A tail that is not positive means a hundred lines. */
  function EffectiveTail(tail: int): (n: nat)
    ensures n > 0 && (tail > 0 ==> n == tail)
  {
    if tail <= 0 then 100 else tail
  }

  /** An envelope as the agent acts on it: `force` is false where it is absent, `follow` is true. The wait for
      the acknowledgement fails on one that refuses, or that does not parse. */
  datatype Instruction =
    | Command(action: Option<Action>, name: string, requestId: string, containerId: string, force: bool)
    | Inspect(requestId: string, containerId: string)
    | Subscribe(requestId: string, containerId: string, tail: nat, follow: bool)
    | Unsubscribe(requestId: string)
    | List
    | Acknowledge(fails: bool)
    | Unreadable

  function Read(e: Envelope): Instruction {
    match (HandlerOf(e.kind), e.payload)
    case (Lists, _) => List
    case (Commands, Target(r, c, force)) =>
      Command(DockerAction(e.kind), ActionFromType(e.kind), r, c, force == Some(true))
    case (Inspects, Target(r, c, _)) => Inspect(r, c)
    case (Subscribes, Subscription(r, c, tail, follow)) => Subscribe(r, c, EffectiveTail(tail), follow != Some(false))
    case (Unsubscribes, Cancellation(r)) => Unsubscribe(r)
    case (Acknowledges, Registration(id, uuid, message)) => Acknowledge(message != "" && id == "" && uuid == "")
    case (Acknowledges, payload) => Acknowledge(payload.Malformed?)
    case _ => Unreadable
  }

  // ---------- the two sides agree ----------

  /** A type string leads to a Docker action exactly when it is that action's command type, and the agent
      then reports the action under the name the server sent it for. */
  lemma CommandTypeInverse(action: Action, kind: string)
    ensures DockerAction(kind) == Some(action) <==> kind == CommandType(action)
    ensures kind == CommandType(action) ==> HandlerOf(kind) == Commands && ActionFromType(kind) == Name(action)
    ensures ActionFromType(kind) == Name(action) <==> kind == CommandType(action)
    ensures HandlerOf(kind) == Commands <==> DockerAction(kind).Some?
  {}

  /** The action names and the type strings of the protocol. */
  lemma WireNames(action: Action)
    ensures CommandType(action) == "container." + Name(action)
    ensures Name(action) == (match action case Start => "start" case Stop => "stop" case Restart => "restart"
                                          case Remove => "remove" case Pause => "pause" case Unpause => "unpause")
  {
    match action {
      case Start => assert "container." + "start" == "container.start";
      case Stop => assert "container." + "stop" == "container.stop";
      case Restart => assert "container." + "restart" == "container.restart";
      case Remove => assert "container." + "remove" == "container.remove";
      case Pause => assert "container." + "pause" == "container.pause";
      case Unpause => assert "container." + "unpause" == "container.unpause";
    }
  }

  lemma CommandRead(action: Action, requestId: string, containerId: string, force: bool)
    ensures Read(CommandEnvelope(action, requestId, containerId, force))
      == Command(Some(action), Name(action), requestId, containerId, action.Remove? && force)
  {
    CommandTypeInverse(action, CommandType(action));
  }

  /** The server's other requests, and how the agent reads them. */
  lemma RequestsRead(r: string, container: string)
    ensures ListEnvelope() == Envelope("container.list", Empty) && Read(ListEnvelope()) == List
    ensures InspectEnvelope(r, container) == Envelope("container.inspect", Target(r, container, None))
    ensures Read(InspectEnvelope(r, container)) == Inspect(r, container)
    ensures UnsubscribeEnvelope(r) == Envelope("logs.unsubscribe", Cancellation(r))
    ensures Read(UnsubscribeEnvelope(r)) == Unsubscribe(r)
  {}

  /** A log is read with the tail and the follow that were sent, a hundred lines and following by default. */
  lemma SubscribeRead(r: string, container: string, tail: int, follow: bool)
    ensures var e := Envelope("logs.subscribe", Subscription(r, container, tail, Some(follow)));
      SubscribeEnvelope(r, container, tail, follow) == e && Read(e) == Subscribe(r, container, if tail > 0 then tail else 100, follow)
    ensures Read(Envelope("logs.subscribe", Subscription(r, container, tail, None)))
      == Subscribe(r, container, if tail > 0 then tail else 100, true)
  {}

  /** A registration is taken as refused only when it brings a message and neither an id nor a uuid, or does not
      parse. */
  lemma RegistrationRead(id: string, uuid: string, message: string)
    ensures RegisteredEnvelope(id, uuid, message) == Envelope("agent.registered", Registration(id, uuid, message))
    ensures Read(RegisteredEnvelope(id, uuid, message)) == Acknowledge(message != "" && id == "" && uuid == "")
    ensures Read(Envelope("agent.registered", Malformed)) == Acknowledge(true)
  {}
}
