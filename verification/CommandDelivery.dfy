/** Commands and inspections, end to end: in every run of server, agents and lanes that can be cut, what a
    promise is settled with is what happened at Docker, and Docker is called at most once. */
module CommandDelivery {
  import Batching
  import opened Prelude
  import opened Inventory
  import opened ContainerListed
  import opened Protocol
  import opened Outstanding
  import opened Gateway
  import opened GatewayRuns
  import opened GatewayTrace
  import opened Fleet
  import opened Identity

  function ContainerOf(order: Order): string { order.container }

  /** The call to Docker an order asks for: only a removal can be forced. */
  function Executed(order: Order): Order {
    match order
    case CommandOrder(action, container, force) => CommandOrder(action, container, action.Remove? && force)
    case _ => order
  }

  /** What an agent reports of the call it made, or of the one it could not make. */
  predicate Reports(r: string, order: Order, call: Option<Verdict>, reply: AgentMessage) {
    match order
    case CommandOrder(action, container, _) =>
      reply == Result(
        match call
        case Some(v) =>
          ResultPayload(r, Name(action), container, v.ok, Some(Name(action) + (if v.ok then " succeeded" else " failed")),
                        if v.ok then None else Some(v.error))
        case None =>
          ResultPayload(r, Name(action), container, false,
                        Some(if container == "" then "Invalid command payload" else "Docker engine unavailable"),
                        Some(if container == "" then "requestId and containerId are required"
                             else "docker client is not initialized")))
    case InspectOrder(container) =>
      reply == Inspected(
        match call
        case Some(v) => InspectedPayload(r, if v.ok then Some(v.details) else None, v.ok, if v.ok then None else Some(v.error))
        case None => InspectedPayload(r, None, false, Some(if container == "" then "requestId and containerId are required"
                                                           else "Docker engine unavailable")))
    case LogOrder(_, _, _) => false
  }

  /** One call by the agent, reported as Docker answered it, or, without a container or without Docker, none. */
  ghost predicate AnswerFits(r: string, order: Order, agent: string, ready: bool, a: Answer, calls: seq<DockerCall>) {
    match a.call
    case Some(k) =>
      && k < |calls| && calls[k] == DockerCall(agent, r, Executed(order), calls[k].verdict)
      && ContainerOf(order) != "" && ready && Reports(r, order, Some(calls[k].verdict), a.reply)
    case None => (ContainerOf(order) == "" || !ready) && Reports(r, order, None, a.reply)
  }

  ghost predicate LinksSound(w: World) {
    && w.links.Keys == w.g.clients.Keys
    && forall s :: s in w.links ==> w.links[s].taken <= |w.g.clients[s].sent|
  }

  /** The envelope of an answered request has been taken. */
  ghost predicate Answered(issued: map<string, Issue>, links: map<SocketId, Link>, engines: set<string>, calls: seq<DockerCall>,
                           r: string, a: Answer)
  {
    && r in issued && issued[r].socket in links && issued[r].index < links[issued[r].socket].taken
    && AnswerFits(r, issued[r].order, links[issued[r].socket].agent, links[issued[r].socket].agent in engines, a, calls)
  }

  ghost predicate AnswersSound(w: World) {
    forall r :: r in w.answers ==> Answered(w.g.issued, w.links, w.engines, w.calls, r, w.answers[r])
  }

  ghost predicate CallTraced(call: DockerCall, k: nat, answers: map<string, Answer>) {
    call.request in answers && answers[call.request].call == Some(k)
  }

  ghost predicate CallsSound(w: World) {
    forall k :: 0 <= k < |w.calls| ==> CallTraced(w.calls[k], k, w.answers)
  }

  ghost predicate MessageTraced(m: AgentMessage, answers: map<string, Answer>) {
    match m
    case Result(p) => p.requestId in answers && answers[p.requestId].reply == m
    case Inspected(p) => p.requestId in answers && answers[p.requestId].reply == m
    case _ => true
  }

  ghost predicate LaneTraced(up: seq<AgentMessage>, answers: map<string, Answer>) {
    forall i :: 0 <= i < |up| ==> MessageTraced(up[i], answers)
  }

  ghost predicate LanesSound(w: World) {
    forall s :: s in w.links ==> LaneTraced(w.links[s].up, w.answers)
  }

  ghost predicate OutcomeTraced(o: Outcome, answers: map<string, Answer>) {
    match o
    case Commanded(x) =>
      x.requestId in answers && answers[x.requestId].reply.Result? && x == Normalised(answers[x.requestId].reply.result)
    case Inspection(x) =>
      x.requestId in answers && answers[x.requestId].reply.Inspected?
      && x == NormalisedInspection(answers[x.requestId].reply.inspected)
    case _ => true
  }

  ghost predicate OutcomesSound(w: World) {
    forall p :: p in w.g.ledger.outcomes ==> OutcomeTraced(w.g.ledger.outcomes[p], w.answers)
  }

  ghost predicate Faithful(w: World) {
    && WellFormed(w.g) && Traced(w.g) && LinksSound(w)
    && AnswersSound(w) && CallsSound(w) && LanesSound(w) && OutcomesSound(w)
  }

  // ---------- the gateway's steps ----------

  lemma MoveOutcome(l: Ledger, m: Move, p: PromiseId)
    requires p in Moved(l, m).outcomes && (Moved(l, m).outcomes[p].Commanded? || Moved(l, m).outcomes[p].Inspection?)
    requires m.Lapse? ==> !m.outcome.Commanded? && !m.outcome.Inspection?
    ensures (p in l.outcomes && l.outcomes[p] == Moved(l, m).outcomes[p]) || (m.Answer? && m.outcome == Moved(l, m).outcomes[p])
  {}

  /** A command's or an inspection's result reaches its promise only in a message. */
  lemma OutcomeArrives(g: State, e: Event, p: PromiseId)
    requires p in Next(g, e).ledger.outcomes
    ensures var o := Next(g, e).ledger.outcomes[p];
      || (p in g.ledger.outcomes && g.ledger.outcomes[p] == o)
      || (o.Commanded? && e.Receives? && e.message.Result? && o.result == Normalised(e.message.result))
      || (o.Inspection? && e.Receives? && e.message.Inspected? && o.details == NormalisedInspection(e.message.inspected))
      || (!o.Commanded? && !o.Inspection?)
  {
    hide Next, Moved;
    StepMoves(g, e);
    var o := Next(g, e).ledger.outcomes[p];
    if o.Commanded? || o.Inspection? {
      MoveOutcome(g.ledger, MoveOf(g, e), p);
    }
  }

  /** The links after a gateway step: nothing taken, nothing said. */
  ghost predicate LinksKept(before: map<SocketId, Link>, after: map<SocketId, Link>) {
    forall s :: s in before ==> s in after && after[s].agent == before[s].agent && after[s].taken == before[s].taken
  }

  lemma GatewayKeepsAnswers(w: World, e: Event, links: map<SocketId, Link>)
    requires AnswersSound(w) && Enabled(w.g, e) && LinksKept(w.links, links)
    ensures AnswersSound(w.(g := Next(w.g, e), links := links))
  {
    hide Next, AnswerFits;
    var v := w.(g := Next(w.g, e), links := links);
    forall r | r in v.answers ensures Answered(v.g.issued, v.links, v.engines, v.calls, r, v.answers[r]) {
      assert Answered(w.g.issued, w.links, w.engines, w.calls, r, w.answers[r]);
      StepKeepsIssued(w.g, e, r);
    }
  }

  lemma GatewayKeepsOutcomes(w: World, e: Event, links: map<SocketId, Link>)
    requires OutcomesSound(w) && (e.Receives? ==> MessageTraced(e.message, w.answers))
    ensures OutcomesSound(w.(g := Next(w.g, e), links := links))
  {
    hide Next;
    var outcomes := Next(w.g, e).ledger.outcomes;
    forall p | p in outcomes ensures OutcomeTraced(outcomes[p], w.answers) {
      OutcomeArrives(w.g, e, p);
      assert p in w.g.ledger.outcomes ==> OutcomeTraced(w.g.ledger.outcomes[p], w.answers);
    }
  }

  lemma GatewayKeepsFaithful(w: World, e: Event, links: map<SocketId, Link>)
    requires Faithful(w) && Enabled(w.g, e)
    requires LinksKept(w.links, links) && (e.Receives? ==> MessageTraced(e.message, w.answers))
    requires LinksSound(w.(g := Next(w.g, e), links := links))
    requires LanesSound(w.(g := Next(w.g, e), links := links))
    ensures Faithful(w.(g := Next(w.g, e), links := links))
  {
    hide Next, WellFormed, Traced, AnswersSound, OutcomesSound, LinksSound, LanesSound, Enabled;
    StepKeepsWellFormed(w.g, e);
    StepKeepsTraced(w.g, e);
    GatewayKeepsAnswers(w, e, links);
    GatewayKeepsOutcomes(w, e, links);
    assert CallsSound(w.(g := Next(w.g, e), links := links));
  }

  // ---------- the agent's steps ----------

  /** A reply to a request not answered before, with the call just made for it, if any. */
  ghost predicate FreshReply(w: World, s: SocketId, r: string, a: Answer, calls: seq<DockerCall>) {
    && r !in w.answers && s in w.links
    && (match a.call
        case None => calls == w.calls
        case Some(k) => k == |w.calls| && |calls| == k + 1 && calls[..k] == w.calls && calls[k].request == r)
    && Answered(w.g.issued, w.links, w.engines, calls, r, a)
  }

  function Replied(w: World, s: SocketId, r: string, a: Answer, calls: seq<DockerCall>): World {
    Reply(w.(calls := calls), s, r, a.call, a.reply)
  }

  lemma LongerLogFits(r: string, order: Order, agent: string, ready: bool, a: Answer, calls: seq<DockerCall>, more: seq<DockerCall>)
    requires AnswerFits(r, order, agent, ready, a, calls) && calls <= more
    ensures AnswerFits(r, order, agent, ready, a, more)
  {}

  lemma ReplyKeepsAnswers(w: World, s: SocketId, r: string, a: Answer, calls: seq<DockerCall>)
    requires AnswersSound(w) && FreshReply(w, s, r, a, calls)
    ensures AnswersSound(Replied(w, s, r, a, calls))
  {
    hide AnswerFits;
    var v := Replied(w, s, r, a, calls);
    assert w.calls <= calls;
    forall q | q in v.answers ensures Answered(v.g.issued, v.links, v.engines, v.calls, q, v.answers[q]) {
      if q != r {
        assert Answered(w.g.issued, w.links, w.engines, w.calls, q, w.answers[q]);
        var agent := w.links[w.g.issued[q].socket].agent;
        LongerLogFits(q, w.g.issued[q].order, agent, agent in w.engines, w.answers[q], w.calls, calls);
      }
    }
  }

  lemma ReplyKeepsCalls(w: World, s: SocketId, r: string, a: Answer, calls: seq<DockerCall>)
    requires CallsSound(w) && FreshReply(w, s, r, a, calls)
    ensures CallsSound(Replied(w, s, r, a, calls))
  {
    hide AnswerFits;
    var v := Replied(w, s, r, a, calls);
    forall k | 0 <= k < |v.calls| ensures CallTraced(v.calls[k], k, v.answers) {
      assert k < |w.calls| ==> v.calls[k] == w.calls[k] && CallTraced(w.calls[k], k, w.answers);
    }
  }

  lemma ReplyKeepsLanes(w: World, s: SocketId, r: string, a: Answer, calls: seq<DockerCall>)
    requires LanesSound(w) && FreshReply(w, s, r, a, calls)
    ensures LanesSound(Replied(w, s, r, a, calls))
  {
    var v := Replied(w, s, r, a, calls);
    assert MessageTraced(a.reply, v.answers);
    forall t | t in v.links ensures LaneTraced(v.links[t].up, v.answers) {
      assert LaneTraced(w.links[t].up, w.answers);
      forall i | 0 <= i < |v.links[t].up| ensures MessageTraced(v.links[t].up[i], v.answers) {
        assert i < |w.links[t].up| ==> MessageTraced(w.links[t].up[i], w.answers);
      }
    }
  }

  lemma ReplyKeepsOutcomes(w: World, s: SocketId, r: string, a: Answer, calls: seq<DockerCall>)
    requires OutcomesSound(w) && FreshReply(w, s, r, a, calls)
    ensures OutcomesSound(Replied(w, s, r, a, calls))
  {
    hide AnswerFits;
    var v := Replied(w, s, r, a, calls);
    forall p | p in v.g.ledger.outcomes ensures OutcomeTraced(v.g.ledger.outcomes[p], v.answers) {
      assert OutcomeTraced(w.g.ledger.outcomes[p], w.answers);
    }
  }

  lemma ReplyKeepsFaithful(w: World, s: SocketId, r: string, a: Answer, calls: seq<DockerCall>)
    requires Faithful(w) && FreshReply(w, s, r, a, calls)
    ensures Faithful(Replied(w, s, r, a, calls))
  {
    hide AnswersSound, CallsSound, LanesSound, OutcomesSound, FreshReply, WellFormed, Traced;
    ReplyKeepsAnswers(w, s, r, a, calls);
    ReplyKeepsCalls(w, s, r, a, calls);
    ReplyKeepsLanes(w, s, r, a, calls);
    ReplyKeepsOutcomes(w, s, r, a, calls);
    assert LinksSound(Replied(w, s, r, a, calls));
  }

  lemma OneMoreMessage(up: seq<AgentMessage>, m: AgentMessage, answers: map<string, Answer>)
    requires LaneTraced(up, answers) && MessageTraced(m, answers)
    ensures LaneTraced(up + [m], answers)
  {}

  lemma SpeakKeepsLanes(w: World, s: SocketId, m: AgentMessage)
    requires LanesSound(w) && MessageTraced(m, w.answers)
    ensures LanesSound(Speak(w, s, m))
  {
    hide LaneTraced, MessageTraced;
    var v := Speak(w, s, m);
    forall t | t in v.links ensures LaneTraced(v.links[t].up, v.answers) {
      assert LaneTraced(w.links[t].up, w.answers);
      OneMoreMessage(w.links[t].up, m, w.answers);
    }
  }

  lemma SpeakKeepsAnswers(w: World, s: SocketId, m: AgentMessage)
    requires AnswersSound(w)
    ensures AnswersSound(Speak(w, s, m))
  {
    hide AnswerFits;
    var v := Speak(w, s, m);
    forall r | r in v.answers ensures Answered(v.g.issued, v.links, v.engines, v.calls, r, v.answers[r]) {
      assert Answered(w.g.issued, w.links, w.engines, w.calls, r, w.answers[r]);
    }
  }

  /** Saying anything but a result is of no consequence. */
  lemma SpeakKeepsFaithful(w: World, s: SocketId, m: AgentMessage)
    requires Faithful(w) && !m.Result? && !m.Inspected?
    ensures Faithful(Speak(w, s, m))
  {
    hide WellFormed, Traced, AnswersSound, LanesSound, OutcomeTraced, CallTraced;
    SpeakKeepsAnswers(w, s, m);
    SpeakKeepsLanes(w, s, m);
  }

  /** Changes to links that leave the lanes alone and take no less than before. */
  ghost predicate LinksAdvance(before: map<SocketId, Link>, after: map<SocketId, Link>) {
    && after.Keys == before.Keys
    && forall s :: s in before ==>
         after[s].agent == before[s].agent && before[s].taken <= after[s].taken && after[s].up == before[s].up
  }

  lemma LinksAdvanceKeepsFaithful(w: World, v: World)
    requires Faithful(w) && LinksSound(v) && LinksAdvance(w.links, v.links)
    requires v.g == w.g && v.engines == w.engines && v.calls == w.calls && v.answers == w.answers
    ensures Faithful(v)
  {
    hide WellFormed, Traced, OutcomeTraced, AnswerFits, LaneTraced;
    forall r | r in v.answers ensures Answered(v.g.issued, v.links, v.engines, v.calls, r, v.answers[r]) {
      assert Answered(w.g.issued, w.links, w.engines, w.calls, r, w.answers[r]);
    }
    forall s | s in v.links ensures LaneTraced(v.links[s].up, v.answers) {
      assert LaneTraced(w.links[s].up, w.answers);
    }
  }

  /** The agent executes a command that it has just read, for the first time. */
  lemma ExecuteKeepsFaithful(w: World, s: SocketId, r: string, order: Order, d: Docker)
    requires Faithful(w) && Unanswered(w, s, r, order) && order.CommandOrder?
    ensures var i := InstructionFor(r, order);
      Faithful(Execute(w, s, w.links[s].agent, w.links[s].agent in w.engines, i.action, i.name, r, i.containerId, i.force, d))
  {
    hide Faithful, Answered;
    var i, agent := InstructionFor(r, order), w.links[s].agent;
    var ready := agent in w.engines;
    var v := Execute(w, s, agent, ready, i.action, i.name, r, i.containerId, i.force, d);
    var calls := if i.containerId == "" || !ready then w.calls
                 else w.calls + [DockerCall(agent, r, CommandOrder(order.action, i.containerId, i.force), d.verdict)];
    var a := v.answers[r];
    AnswerGiven(w, s, r, order, a, calls);
    ReplyKeepsFaithful(w, s, r, a, calls);
    assert w.(calls := w.calls) == w;
  }

  lemma ExamineKeepsFaithful(w: World, s: SocketId, r: string, order: Order, d: Docker)
    requires Faithful(w) && Unanswered(w, s, r, order) && order.InspectOrder?
    ensures Faithful(Examine(w, s, w.links[s].agent, w.links[s].agent in w.engines, r, order.container, d))
  {
    hide Faithful, Answered;
    var agent := w.links[s].agent;
    var ready := agent in w.engines;
    var v := Examine(w, s, agent, ready, r, order.container, d);
    var calls := if order.container == "" || !ready then w.calls
                 else w.calls + [DockerCall(agent, r, InspectOrder(order.container), d.verdict)];
    var a := v.answers[r];
    AnswerGiven(w, s, r, order, a, calls);
    ReplyKeepsFaithful(w, s, r, a, calls);
    assert w.(calls := w.calls) == w;
  }

  /** The request's envelope has been taken from this socket, and nothing has been done about it. */
  ghost predicate Unanswered(w: World, s: SocketId, r: string, order: Order) {
    && r != "" && r !in w.answers && s in w.links
    && r in w.g.issued && w.g.issued[r].socket == s && w.g.issued[r].order == order
    && w.g.issued[r].index < w.links[s].taken
  }

  lemma AnswerGiven(w: World, s: SocketId, r: string, order: Order, a: Answer, calls: seq<DockerCall>)
    requires Unanswered(w, s, r, order) && AnswerFits(r, order, w.links[s].agent, w.links[s].agent in w.engines, a, calls)
    requires if a.call.None? then calls == w.calls
             else a.call == Some(|w.calls|) && |calls| == |w.calls| + 1 && calls[..|w.calls|] == w.calls
    ensures FreshReply(w, s, r, a, calls)
  {}

  /** Taking the next envelope off the lane: an order on it cannot have been answered. */
  lemma TakenUnanswered(w: World, s: SocketId, r: string)
    requires Faithful(w) && s in w.links && r in w.g.issued
    requires w.g.issued[r].socket == s && w.g.issued[r].index == w.links[s].taken
    ensures r !in w.answers
  {
    hide WellFormed, Traced, CallsSound, LanesSound, OutcomesSound, AnswerFits;
    assert r in w.answers ==> Answered(w.g.issued, w.links, w.engines, w.calls, r, w.answers[r]);
  }

  function Advanced(w: World, s: SocketId): World
    requires s in w.links
  {
    w.(links := w.links[s := w.links[s].(taken := w.links[s].taken + 1)])
  }

  lemma AdvanceKeepsFaithful(w: World, s: SocketId)
    requires Faithful(w) && s in w.links && w.links[s].taken < |w.g.clients[s].sent|
    ensures Faithful(Advanced(w, s))
  {
    hide WellFormed, Traced, AnswersSound, CallsSound, LanesSound, OutcomesSound;
    LinksAdvanceKeepsFaithful(w, Advanced(w, s));
  }

  /** The agent obeys an instruction other than an order, or opens a log stream. */
  lemma OtherKeepsFaithful(w: World, s: SocketId, i: Instruction, d: Docker)
    requires Faithful(w) && s in w.links && !i.Command? && !i.Inspect?
    ensures Faithful(Obey(w, s, w.links[s].agent, i, d))
  {
    hide Faithful, PayloadJson;
    match i {
      case Subscribe(r, container, _, _) =>
        StreamsKeepFaithful(w, OpenStream(w, w.links[s].agent, r, container, d));
      case List =>
        SpeakKeepsFaithful(w, s, Listed(PayloadJson([])));
        if d.listing.Some? {
          SpeakKeepsFaithful(w, s, Listed(d.listing.value));
        }
      case _ =>
    }
  }

  lemma StreamsKeepFaithful(w: World, v: World)
    requires Faithful(w) && v == w.(streams := v.streams, sessions := v.sessions)
    ensures Faithful(v)
  {
    hide WellFormed, Traced, OutcomeTraced, Answered, LaneTraced, CallTraced;
  }

  lemma ObeyKeepsFaithful(w: World, s: SocketId, r: string, order: Order, d: Docker)
    requires Faithful(w) && Unanswered(w, s, r, order)
    ensures Faithful(Obey(w, s, w.links[s].agent, InstructionFor(r, order), d))
  {
    hide Faithful, Execute, Examine, OpenStream, SendList;
    match order {
      case CommandOrder(_, _, _) => ExecuteKeepsFaithful(w, s, r, order, d);
      case InspectOrder(_) => ExamineKeepsFaithful(w, s, r, order, d);
      case LogOrder(_, _, _) => OtherKeepsFaithful(w, s, InstructionFor(r, order), d);
    }
  }

  lemma HangUpKeepsFaithful(w: World, s: SocketId)
    requires Faithful(w)
    ensures Faithful(HangUp(w, s))
  {
    hide WellFormed, Traced, AnswersSound, CallsSound, LanesSound, OutcomesSound;
    if s in w.links {
      LinksAdvanceKeepsFaithful(w, HangUp(w, s));
    }
  }

  lemma AwaitKeepsFaithful(w: World, s: SocketId, i: Instruction)
    requires Faithful(w)
    ensures Faithful(AwaitRegistered(w, s, i))
  {
    hide WellFormed, Traced, AnswersSound, CallsSound, LanesSound, OutcomesSound;
    if s in w.links && i.Acknowledge? && !i.fails {
      LinksAdvanceKeepsFaithful(w, AwaitRegistered(w, s, i));
    } else {
      HangUpKeepsFaithful(w, s);
    }
  }

  lemma TakeKeepsFaithful(w: World, s: SocketId, d: Docker)
    requires Faithful(w) && Possible(w, Takes(s, d))
    ensures Faithful(Take(w, s, d))
  {
    hide AnswersSound, CallsSound, LanesSound, OutcomesSound, WellFormed, Traced, Read, InstructionFor, Obey;
    var l := w.links[s];
    var e := w.g.clients[s].sent[l.taken];
    var k := Advanced(w, s);
    AdvanceKeepsFaithful(w, s);
    ReadAt(w.g, s, l.taken);
    if !l.registered {
      AwaitKeepsFaithful(k, s, Read(e));
    } else if RequestOf(e).Some? {
      var r := RequestOf(e).value;
      TakenUnanswered(w, s, r);
      ObeyKeepsFaithful(k, s, r, w.g.issued[r].order, d);
    } else {
      OtherKeepsFaithful(k, s, Read(e), d);
    }
  }

  lemma MoveStreamKeepsFaithful(w: World, r: string, move: Batching.Step)
    requires Faithful(w)
    ensures Faithful(MoveStream(w, r, move))
  {
    hide Faithful, Batching.Next;
    if r in w.streams {
      var ls := w.streams[r];
      var next := Batching.Next(ls.stream, move);
      var k := w.(streams := w.streams[r := ls.(stream := next)]);
      StreamsKeepFaithful(w, k);
      if |next.work.handed| > |ls.stream.work.handed| && ls.agent in w.sessions {
        SpeakKeepsFaithful(k, w.sessions[ls.agent],
                           Chunk(ChunkPayload(r, ls.container, Some(next.work.handed[|ls.stream.work.handed|]))));
      }
    }
  }

  // ---------- every step ----------

  /** Sockets are known from their connection on, and for ever. */
  lemma ClientsAfter(g: State, e: Event)
    ensures Next(g, e).clients.Keys == g.clients.Keys + (if e.Connects? then {e.socket} else {})
  {
    hide RememberHost, SetContainers, AgentGone, Close, Open, Expire, CommandEnvelope, InspectEnvelope, SubscribeEnvelope,
         UnsubscribeEnvelope, RegisteredEnvelope, ListEnvelope, Receive, Disconnect;
    match e {
      case Receives(s, m) => ReceiveClients(g, s, m);
      case Disconnects(s) => DisconnectClients(g, s);
      case _ =>
    }
  }

  lemma ReceiveClients(g: State, s: SocketId, m: AgentMessage)
    ensures Receive(g, s, m).clients.Keys == g.clients.Keys
  {
    hide SetContainers, Close, RegisteredEnvelope;
  }

  lemma DisconnectClients(g: State, s: SocketId)
    ensures Disconnect(g, s).clients.Keys == g.clients.Keys
  {
    hide AgentGone;
  }

  /** A gateway step that leaves the links as they are, but for what has arrived. */
  lemma ServeKeepsFaithful(w: World, e: Event, links: map<SocketId, Link>)
    requires Faithful(w) && Enabled(w.g, e) && !e.Connects? && (e.Receives? ==> MessageTraced(e.message, w.answers))
    requires links.Keys == w.links.Keys && LinksKept(w.links, links)
    requires forall s :: s in links ==> LaneTraced(links[s].up, w.answers)
    ensures Faithful(w.(g := Next(w.g, e), links := links))
  {
    hide Next, WellFormed, Traced, AnswersSound, CallsSound, OutcomesSound, LaneTraced, MessageTraced, Enabled;
    StepKeepsTraced(w.g, e);
    ClientsAfter(w.g, e);
    GatewayKeepsFaithful(w, e, links);
  }

  lemma DialKeepsLinks(w: World, agent: string, s: SocketId)
    requires LinksSound(w) && LanesSound(w) && s !in w.g.clients && s !in w.links && SentGrows(w.g, Next(w.g, Connects(s)))
    ensures var v := w.(g := Next(w.g, Connects(s)), links := w.links[s := Link(agent, true, true, false, 0, [])]);
      LinksSound(v) && LanesSound(v) && LinksKept(w.links, v.links)
  {
    assert LaneTraced([], w.answers);
    hide Next, LaneTraced;
    ClientsAfter(w.g, Connects(s));
  }

  lemma DialKeepsFaithful(w: World, agent: string, s: SocketId)
    requires Faithful(w) && Possible(w, Dials(agent, s))
    ensures Faithful(NextWorld(w, Dials(agent, s)))
  {
    var links := w.links[s := Link(agent, true, true, false, 0, [])];
    hide Next, WellFormed, Traced, AnswersSound, CallsSound, OutcomesSound, LanesSound, LinksSound, LinksKept, MessageTraced;
    StepKeepsTraced(w.g, Connects(s));
    DialKeepsLinks(w, agent, s);
    GatewayKeepsFaithful(w, Connects(s), links);
    StreamsKeepFaithful(w.(g := Next(w.g, Connects(s)), links := links), NextWorld(w, Dials(agent, s)));
  }

  lemma ArriveKeepsFaithful(w: World, s: SocketId)
    requires Faithful(w) && Possible(w, Arrives(s))
    ensures Faithful(Arrive(w, s))
  {
    var up := w.links[s].up;
    assert LaneTraced(up, w.answers) && MessageTraced(up[0], w.answers);
    assert LaneTraced(up[1..], w.answers);
    hide Next, WellFormed, Traced, AnswersSound, CallsSound, OutcomesSound, LaneTraced, MessageTraced;
    ServeKeepsFaithful(w, Receives(s, up[0]), w.links[s := w.links[s].(up := up[1..])]);
  }

  lemma StepKeepsFaithful(w: World, step: Step)
    requires Faithful(w) && Possible(w, step)
    ensures Faithful(NextWorld(w, step))
  {
    hide Next, WellFormed, Traced, AnswersSound, CallsSound, OutcomesSound, LinksSound, LaneTraced, Take, HangUp, MoveStream,
         Arrive, Speak;
    match step {
      case Dials(agent, s) => DialKeepsFaithful(w, agent, s);
      case Serves(e) => ServeKeepsFaithful(w, e, w.links);
      case Notices(s) => ServeKeepsFaithful(w, Disconnects(s), w.links[s := w.links[s].(serverUp := false)]);
      case Arrives(s) => ArriveKeepsFaithful(w, s);
      case Says(s, m) => SpeakKeepsFaithful(w, s, m);
      case Takes(s, d) => TakeKeepsFaithful(w, s, d);
      case Loses(s) => HangUpKeepsFaithful(w, s);
      case Streams(r, move) => MoveStreamKeepsFaithful(w, r, move);
    }
  }

  lemma {:induction false} AlwaysFaithful(w: World, steps: seq<Step>, v: World)
    requires Faithful(w) && Happens(w, steps, v)
    ensures Faithful(v)
    decreases |steps|
  {
    hide Faithful, Possible, NextWorld;
    if steps != [] {
      StepKeepsFaithful(w, steps[0]);
      AlwaysFaithful(NextWorld(w, steps[0]), steps[1..], v);
    }
  }

  // ---------- what stays on record ----------

  ghost predicate Extends(w: World, v: World) {
    && v.engines == w.engines
    && (forall r :: r in w.g.issued ==> r in v.g.issued && v.g.issued[r] == w.g.issued[r])
    && (forall p :: p in w.g.ledger.promises ==> p in v.g.ledger.promises && v.g.ledger.promises[p] == w.g.ledger.promises[p])
    && (forall s :: s in w.links ==> s in v.links && v.links[s].agent == w.links[s].agent)
  }

  lemma NextExtends(g: State, e: Event, r: string, p: PromiseId)
    requires WellFormed(g) && Enabled(g, e)
    ensures r in g.issued ==> r in Next(g, e).issued && Next(g, e).issued[r] == g.issued[r]
    ensures p in g.ledger.promises ==> p in Next(g, e).ledger.promises && Next(g, e).ledger.promises[p] == g.ledger.promises[p]
  {
    hide Next, Moved, Made, MoveOf;
    if r in g.issued {
      StepKeepsIssued(g, e, r);
    }
    StepMoves(g, e);
    MovePromises(g.ledger, MoveOf(g, e));
    assert p in g.ledger.promises ==> PromiseBacked(g.ledger, p);
  }

  lemma ServeExtends(w: World, e: Event, links: map<SocketId, Link>)
    requires WellFormed(w.g) && Enabled(w.g, e)
    requires forall s :: s in w.links ==> s in links && links[s].agent == w.links[s].agent
    ensures Extends(w, w.(g := Next(w.g, e), links := links))
  {
    hide Next, WellFormed, Enabled;
    var h := Next(w.g, e);
    forall r | r in w.g.issued ensures r in h.issued && h.issued[r] == w.g.issued[r] {
      NextExtends(w.g, e, r, 0);
    }
    forall p | p in w.g.ledger.promises ensures p in h.ledger.promises && h.ledger.promises[p] == w.g.ledger.promises[p] {
      NextExtends(w.g, e, "", p);
    }
  }

  lemma ObeyExtends(w: World, s: SocketId, agent: string, i: Instruction, d: Docker)
    ensures Extends(w, Obey(w, s, agent, i, d))
  {
    hide Obey;
    var m := ObeySays(w, s, agent, i, d);
  }

  lemma AdvanceExtends(w: World, s: SocketId)
    requires s in w.links
    ensures Extends(w, Advanced(w, s))
  {}

  lemma AwaitExtends(w: World, s: SocketId, i: Instruction)
    ensures Extends(w, AwaitRegistered(w, s, i))
  {}

  lemma TakeExtends(w: World, s: SocketId, d: Docker)
    ensures Extends(w, Take(w, s, d))
  {
    if s in w.links && s in w.g.clients && w.links[s].taken < |w.g.clients[s].sent| {
      hide Obey, Read, Extends, AwaitRegistered;
      var i := Read(w.g.clients[s].sent[w.links[s].taken]);
      var k := Advanced(w, s);
      AdvanceExtends(w, s);
      ObeyExtends(k, s, w.links[s].agent, i, d);
      AwaitExtends(k, s, i);
      ExtendsTransitive(w, k, Take(w, s, d));
    }
  }

  lemma StepExtends(w: World, step: Step)
    requires WellFormed(w.g) && Possible(w, step)
    ensures Extends(w, NextWorld(w, step))
  {
    hide Next, Take, WellFormed, Batching.Next;
    match step {
      case Dials(agent, s) => ServeExtends(w, Connects(s), w.links[s := Link(agent, true, true, false, 0, [])]);
      case Serves(e) => ServeExtends(w, e, w.links);
      case Notices(s) => ServeExtends(w, Disconnects(s), w.links[s := w.links[s].(serverUp := false)]);
      case Arrives(s) => ServeExtends(w, Receives(s, w.links[s].up[0]), w.links[s := w.links[s].(up := w.links[s].up[1..])]);
      case Takes(s, d) => TakeExtends(w, s, d);
      case _ =>
    }
  }

  lemma ExtendsTransitive(a: World, b: World, c: World)
    requires Extends(a, b) && Extends(b, c)
    ensures Extends(a, c)
  {}

  lemma {:induction false} RunExtends(w: World, steps: seq<Step>, v: World)
    requires Faithful(w) && Happens(w, steps, v)
    ensures Extends(w, v)
    decreases |steps|
  {
    assert Extends(w, w);
    if steps != [] {
      var next := NextWorld(w, steps[0]);
      assert WellFormed(w.g);
      hide Faithful, Possible, NextWorld, Extends, WellFormed;
      StepKeepsFaithful(w, steps[0]);
      StepExtends(w, steps[0]);
      RunExtends(next, steps[1..], v);
      ExtendsTransitive(w, next, v);
    }
  }

  // ---------- the theorems ----------

  /** The calls made for a request, by their positions in the log of calls. */
  ghost function CallsFor(w: World, r: string): set<nat> {
    set k | 0 <= k < |w.calls| && w.calls[k].request == r
  }

  lemma RestFaithful(engines: set<string>)
    ensures Faithful(AtRest(engines)) && Identified(AtRest(engines))
  {}

  /** The calls for an answered request are the one in the answer. */
  lemma CallsOfAnswer(w: World, r: string)
    requires CallsSound(w) && r in w.answers
    ensures match w.answers[r].call case Some(k) => CallsFor(w, r) <= {k} case None => CallsFor(w, r) == {}
  {
    forall k | k in CallsFor(w, r) ensures w.answers[r].call == Some(k) {
      assert CallTraced(w.calls[k], k, w.answers);
    }
  }

  /** In every run Docker is called at most once for a request id, and only by the agent at the other end of
      the socket the order went out on, which has Docker, for what was ordered, on the container named. */
  lemma AtMostOnce(engines: set<string>, steps: seq<Step>, w: World, k: nat)
    requires Happens(AtRest(engines), steps, w) && k < |w.calls|
    ensures var r := w.calls[k].request;
      && CallsFor(w, r) == {k}
      && r in w.g.issued && w.calls[k].order == Executed(w.g.issued[r].order) && ContainerOf(w.calls[k].order) != ""
      && w.g.issued[r].socket in w.links && w.calls[k].agent == w.links[w.g.issued[r].socket].agent
      && w.calls[k].agent in engines
  {
    hide WellFormed, Traced, LinksSound, LanesSound, OutcomesSound, Happens;
    RestFaithful(engines);
    AlwaysFaithful(AtRest(engines), steps, w);
    RunExtends(AtRest(engines), steps, w);
    var r := w.calls[k].request;
    assert CallTraced(w.calls[k], k, w.answers);
    assert Answered(w.g.issued, w.links, w.engines, w.calls, r, w.answers[r]);
    CallsOfAnswer(w, r);
  }

  /** What a command's outcome says about the agent's Docker. */
  ghost predicate Truthful(w: World, r: string, agent: string, action: Action, container: string, force: bool, o: Outcome) {
    var call := CommandOrder(action, container, action.Remove? && force);
    match o
    case Commanded(x) =>
      && x.requestId == r && x.action == Name(action) && x.containerId == container
      && (if container != "" && agent in w.engines
          then exists k :: CallsFor(w, r) == {k} && w.calls[k] == DockerCall(agent, r, call, w.calls[k].verdict)
                           && x.ok == w.calls[k].verdict.ok
                           && x.message == Name(action) + (if x.ok then " succeeded" else " failed")
                           && x.error == (if x.ok then None else Some(w.calls[k].verdict.error))
          else CallsFor(w, r) == {} && !x.ok
               && x.message == (if container == "" then "Invalid command payload" else "Docker engine unavailable")
               && x.error == Some(if container == "" then "requestId and containerId are required"
                                  else "docker client is not initialized"))
    case Rejected(_) =>
      CallsFor(w, r) == {} || exists k :: CallsFor(w, r) == {k} && w.calls[k].agent == agent && w.calls[k].order == call
    case _ => false
  }

  /** The calls for a request whose answer is known: one where it is due, and the reply reports it. */
  lemma AnsweredCalls(w: World, r: string)
    requires AnswersSound(w) && CallsSound(w) && r in w.answers
    ensures r in w.g.issued && w.g.issued[r].socket in w.links
    ensures var i, a := w.g.issued[r], w.answers[r]; var agent := w.links[i.socket].agent;
      if ContainerOf(i.order) != "" && agent in w.engines
      then exists k :: CallsFor(w, r) == {k} && w.calls[k] == DockerCall(agent, r, Executed(i.order), w.calls[k].verdict)
                       && Reports(r, i.order, Some(w.calls[k].verdict), a.reply)
      else CallsFor(w, r) == {} && Reports(r, i.order, None, a.reply)
  {
    hide CallTraced, Reports;
    assert Answered(w.g.issued, w.links, w.engines, w.calls, r, w.answers[r]);
    CallsOfAnswer(w, r);
    if w.answers[r].call.Some? {
      var k := w.answers[r].call.value;
      assert k in CallsFor(w, r);
      assert CallsFor(w, r) == {k};
    }
  }

  lemma SettledTraced(w: World, p: PromiseId)
    requires Faithful(w) && p in w.g.ledger.outcomes && p in w.g.ledger.promises
    ensures Fits(w.g.ledger.promises[p], w.g.ledger.outcomes[p]) && OutcomeTraced(w.g.ledger.outcomes[p], w.answers)
  {
    hide Traced, LinksSound, LanesSound, AnswersSound, CallsSound, RequestsIssued, SubscribersIssued, OutcomeTraced;
    assert PromiseBacked(w.g.ledger, p);
  }

  lemma SettledTruthfully(w: World, p: PromiseId, r: string)
    requires Faithful(w) && p in w.g.ledger.outcomes && p in w.g.ledger.promises && w.g.ledger.promises[p] == ForCommand(r)
    requires r in w.g.issued && w.g.issued[r].order.CommandOrder? && w.g.issued[r].socket in w.links
    ensures var i := w.g.issued[r];
      Truthful(w, r, w.links[i.socket].agent, i.order.action, i.order.container, i.order.force, w.g.ledger.outcomes[p])
  {
    hide WellFormed, Traced, LinksSound, LanesSound, OutcomesSound, AnswersSound, CallsSound, CallsFor;
    SettledTraced(w, p);
    if r in w.answers {
      AnsweredCalls(w, r);
    } else {
      NoAnswerNoCalls(w, r);
    }
  }

  lemma NoAnswerNoCalls(w: World, r: string)
    requires CallsSound(w) && r !in w.answers
    ensures CallsFor(w, r) == {}
  {
    forall k | 0 <= k < |w.calls| ensures w.calls[k].request != r {
      assert CallTraced(w.calls[k], k, w.answers);
    }
  }

  /** Sending to a connected agent makes a promise for the request id, and records the order and a socket
      that leads to that agent. */
  lemma CommandRecorded(w: World, agent: string, host: string, action: Action, container: string, force: bool, r: string)
    requires Identified(w) && Connected(w.g, agent).Some?
    ensures var v := SendCommand(w.g, agent, host, action, container, force, r); var p := w.g.ledger.nextPromise;
      && p in v.ledger.promises && v.ledger.promises[p] == ForCommand(r)
      && r in v.issued && v.issued[r].order == CommandOrder(action, container, force)
      && v.issued[r].socket in w.links && w.links[v.issued[r].socket].agent == agent
  {
    hide RememberHost, CommandEnvelope, Named, OwnMessages;
  }

  lemma InspectRecorded(w: World, agent: string, host: string, container: string, r: string)
    requires Identified(w) && Connected(w.g, agent).Some?
    ensures var v := AskInspect(w.g, agent, host, container, r); var p := w.g.ledger.nextPromise;
      && p in v.ledger.promises && v.ledger.promises[p] == ForInspect(r)
      && r in v.issued && v.issued[r].order == InspectOrder(container)
      && v.issued[r].socket in w.links && w.links[v.issued[r].socket].agent == agent
  {
    hide RememberHost, InspectEnvelope, Named, OwnMessages;
  }

  /** In every run: when the promise of sendContainerCommand resolves, the agent made exactly that call on
      that container exactly once, and `ok` is its outcome; without a container or without Docker it made
      none, and `ok` is false. When it rejects, the call was made at most once. */
  lemma CommandDelivered(engines: set<string>, before: seq<Step>, w: World, after: seq<Step>, v: World,
                         agent: string, host: string, action: Action, container: string, force: bool, r: string)
    requires Happens(AtRest(engines), before, w) && Connected(w.g, agent).Some?
    requires Possible(w, Serves(SendsCommand(agent, host, action, container, force, r)))
    requires Happens(NextWorld(w, Serves(SendsCommand(agent, host, action, container, force, r))), after, v)
    ensures var p := w.g.ledger.nextPromise;
      && p in v.g.ledger.promises && v.g.ledger.promises[p] == ForCommand(r)
      && (p in v.g.ledger.outcomes ==>
            Truthful(v, r, agent, action, container, force, v.g.ledger.outcomes[p]))
      && v.engines == engines
  {
    RestFaithful(engines);
    hide Faithful, Identified, Happens, Possible, SendCommand, Truthful;
    var step := Serves(SendsCommand(agent, host, action, container, force, r));
    var sent := NextWorld(w, step);
    AlwaysFaithful(AtRest(engines), before, w);
    AlwaysIdentified(AtRest(engines), before, w);
    RunExtends(AtRest(engines), before, w);
    StepKeepsFaithful(w, step);
    AlwaysFaithful(sent, after, v);
    RunExtends(sent, after, v);
    CommandRecorded(w, agent, host, action, container, force, r);
    if w.g.ledger.nextPromise in v.g.ledger.outcomes {
      SettledTruthfully(v, w.g.ledger.nextPromise, r);
    }
  }

  /** What an inspection's outcome says about the agent's Docker. */
  ghost predicate TruthfulInspection(w: World, r: string, agent: string, container: string, o: Outcome) {
    match o
    case Inspection(x) =>
      && x.requestId == r
      && (if container != "" && agent in w.engines
          then exists k :: CallsFor(w, r) == {k}
                           && w.calls[k] == DockerCall(agent, r, InspectOrder(container), w.calls[k].verdict)
                           && x.ok == w.calls[k].verdict.ok
                           && x.container == (if x.ok then Some(w.calls[k].verdict.details) else None)
                           && x.error == (if x.ok then None else Some(w.calls[k].verdict.error))
          else CallsFor(w, r) == {} && !x.ok && x.container == None
               && x.error == Some(if container == "" then "requestId and containerId are required"
                                  else "Docker engine unavailable"))
    case Rejected(_) =>
      CallsFor(w, r) == {}
      || exists k :: CallsFor(w, r) == {k} && w.calls[k].agent == agent && w.calls[k].order == InspectOrder(container)
    case _ => false
  }

  lemma InspectionSettledTruthfully(w: World, p: PromiseId, r: string)
    requires Faithful(w) && p in w.g.ledger.outcomes && p in w.g.ledger.promises && w.g.ledger.promises[p] == ForInspect(r)
    requires r in w.g.issued && w.g.issued[r].order.InspectOrder? && w.g.issued[r].socket in w.links
    ensures var i := w.g.issued[r];
      TruthfulInspection(w, r, w.links[i.socket].agent, i.order.container, w.g.ledger.outcomes[p])
  {
    hide WellFormed, Traced, LinksSound, LanesSound, OutcomesSound, AnswersSound, CallsSound, CallsFor;
    SettledTraced(w, p);
    if r in w.answers {
      AnsweredCalls(w, r);
    } else {
      NoAnswerNoCalls(w, r);
    }
  }

  /** The same for inspectContainer. */
  lemma InspectionDelivered(engines: set<string>, before: seq<Step>, w: World, after: seq<Step>, v: World,
                            agent: string, host: string, container: string, r: string)
    requires Happens(AtRest(engines), before, w) && Connected(w.g, agent).Some?
    requires Possible(w, Serves(AsksInspect(agent, host, container, r)))
    requires Happens(NextWorld(w, Serves(AsksInspect(agent, host, container, r))), after, v)
    ensures var p := w.g.ledger.nextPromise;
      && p in v.g.ledger.promises && v.g.ledger.promises[p] == ForInspect(r)
      && (p in v.g.ledger.outcomes ==> TruthfulInspection(v, r, agent, container, v.g.ledger.outcomes[p]))
      && v.engines == engines
  {
    RestFaithful(engines);
    hide Faithful, Identified, Happens, Possible, AskInspect, TruthfulInspection;
    var step := Serves(AsksInspect(agent, host, container, r));
    var sent := NextWorld(w, step);
    AlwaysFaithful(AtRest(engines), before, w);
    AlwaysIdentified(AtRest(engines), before, w);
    RunExtends(AtRest(engines), before, w);
    StepKeepsFaithful(w, step);
    AlwaysFaithful(sent, after, v);
    RunExtends(sent, after, v);
    InspectRecorded(w, agent, host, container, r);
    if w.g.ledger.nextPromise in v.g.ledger.outcomes {
      InspectionSettledTruthfully(v, w.g.ledger.nextPromise, r);
    }
  }
}
