/** The in-memory container inventory: apps/server/src/agents/container-inventory.service.ts. */
module Inventory {
  import opened Prelude
  import opened ContainerListed

  datatype Snapshot = Snapshot(hostId: string, agentUuid: string, containers: seq<ContainerSummary>)

  datatype Tables = Tables(byHostId: map<string, Snapshot>, hostIdByUuid: map<string, string>)

  const EMPTY: Tables := Tables(map[], map[])

  function RememberHost(t: Tables, hostId: string, agentUuid: string): Tables {
    var kept := if hostId in t.byHostId then t.byHostId[hostId].containers else [];
    Tables(t.byHostId[hostId := Snapshot(if hostId in t.byHostId then t.byHostId[hostId].hostId else hostId, agentUuid, kept)],
           t.hostIdByUuid[agentUuid := hostId])
  }

  /** hostId ?? this.hostIdByUuid.get(agentUuid), where the empty string counts as missing. */
  function ResolveHost(t: Tables, agentUuid: string, hostId: Option<string>): Option<string> {
    var resolved := if hostId.Some? then hostId else Lookup(t.hostIdByUuid, agentUuid);
    if resolved == Some("") then None else resolved
  }

  function Lookup<V>(m: map<string, V>, key: string): Option<V> {
    if key in m then Some(m[key]) else None
  }

  function SetContainers(t: Tables, agentUuid: string, containers: seq<ContainerSummary>, hostId: Option<string>): Tables {
    match ResolveHost(t, agentUuid, hostId)
    case None => t
    case Some(host) =>
      Tables(t.byHostId[host := Snapshot(host, agentUuid, containers)], t.hostIdByUuid[agentUuid := host])
  }

  function ByHostId(t: Tables, hostId: string): Option<Snapshot> { Lookup(t.byHostId, hostId) }

  function ByUuid(t: Tables, agentUuid: string): Option<Snapshot> {
    match ResolveHost(t, agentUuid, None) case None => None case Some(host) => Lookup(t.byHostId, host)
  }

  /** `this.inventory.getByUuid(uuid)?.containers ?? []` */
  function Containers(found: Option<Snapshot>): seq<ContainerSummary> {
    match found case None => [] case Some(s) => s.containers
  }

  /** Without a host, or with an empty one, nothing is stored and nothing is found. */
  lemma NoHostNothingStored(t: Tables, agent: string, containers: seq<ContainerSummary>)
    requires agent !in t.hostIdByUuid || t.hostIdByUuid[agent] == ""
    ensures SetContainers(t, agent, containers, None) == t && ByUuid(t, agent) == None && Containers(ByUuid(t, agent)) == []
    ensures SetContainers(t, agent, containers, Some("")) == t
  {}

  class ContainerInventoryService {
    var byHostId: map<string, Snapshot>
    var hostIdByUuid: map<string, string>

    ghost function State(): Tables reads this { Tables(byHostId, hostIdByUuid) }

    constructor ()
      ensures State() == EMPTY
    {
      byHostId, hostIdByUuid := map[], map[];
    }

    method Remember(hostId: string, agentUuid: string)
      modifies this
      ensures State() == RememberHost(old(State()), hostId, agentUuid)
    {
      hostIdByUuid := hostIdByUuid[agentUuid := hostId];
      if hostId !in byHostId {
        byHostId := byHostId[hostId := Snapshot(hostId, agentUuid, [])];
      } else if byHostId[hostId].agentUuid != agentUuid {
        byHostId := byHostId[hostId := byHostId[hostId].(agentUuid := agentUuid)];
      }
    }

    method Set(agentUuid: string, containers: seq<ContainerSummary>, hostId: Option<string>)
      returns (snapshot: Option<Snapshot>)
      modifies this
      ensures State() == SetContainers(old(State()), agentUuid, containers, hostId)
      ensures snapshot == (match ResolveHost(old(State()), agentUuid, hostId)
                           case None => None case Some(host) => Some(Snapshot(host, agentUuid, containers)))
    {
      var resolved := if hostId.Some? then hostId else Lookup(hostIdByUuid, agentUuid);
      if resolved.None? || resolved.value == "" {
        return None;
      }
      var latest := Snapshot(resolved.value, agentUuid, containers);
      byHostId := byHostId[resolved.value := latest];
      hostIdByUuid := hostIdByUuid[agentUuid := resolved.value];
      return Some(latest);
    }

    method GetByHostId(hostId: string) returns (found: Option<Snapshot>)
      ensures found == ByHostId(State(), hostId)
    {
      found := Lookup(byHostId, hostId);
    }

    method GetByUuid(agentUuid: string) returns (found: Option<Snapshot>)
      ensures found == ByUuid(State(), agentUuid)
    {
      if agentUuid !in hostIdByUuid || hostIdByUuid[agentUuid] == "" {
        return None;
      }
      found := Lookup(byHostId, hostIdByUuid[agentUuid]);
    }
  }

  // ---------- the two maps are one ----------

  datatype Call =
    | Remembered(agent: string)
    | Reported(agent: string, containers: seq<ContainerSummary>, withHost: bool)

  /** A fixed one-to-one correspondence between agents and (nonempty) host ids. */
  ghost predicate OneToOne(hostOf: map<string, string>) {
    && (forall a, b :: a in hostOf && b in hostOf && hostOf[a] == hostOf[b] ==> a == b)
    && forall a :: a in hostOf ==> hostOf[a] != ""
  }

  ghost predicate About(calls: seq<Call>, hostOf: map<string, string>) {
    forall i :: 0 <= i < |calls| ==> calls[i].agent in hostOf
  }

  function RunCalls(calls: seq<Call>, hostOf: map<string, string>): Tables
    requires forall i :: 0 <= i < |calls| ==> calls[i].agent in hostOf
  {
    if calls == [] then EMPTY
    else
      var t, last := RunCalls(calls[..|calls| - 1], hostOf), calls[|calls| - 1];
      match last
      case Remembered(agent) => RememberHost(t, hostOf[agent], agent)
      case Reported(agent, containers, withHost) =>
        SetContainers(t, agent, containers, if withHost then Some(hostOf[agent]) else None)
  }

  /** The reference: one list per agent, known from the first call that names its host. */
  function LastReport(calls: seq<Call>, agent: string): Option<seq<ContainerSummary>> {
    if calls == [] then None
    else
      var before, last := LastReport(calls[..|calls| - 1], agent), calls[|calls| - 1];
      if last.agent != agent then before
      else match last
        case Remembered(_) => if before.None? then Some([]) else before
        case Reported(_, containers, withHost) => if withHost || before.Some? then Some(containers) else None
  }

  /** Both maps know the same agents, each under its own host, with its latest list. */
  ghost predicate Mirrors(t: Tables, calls: seq<Call>, hostOf: map<string, string>) {
    && (forall u :: u in t.hostIdByUuid ==> u in hostOf && t.hostIdByUuid[u] == hostOf[u])
    && (forall a :: a in hostOf ==> (a in t.hostIdByUuid <==> LastReport(calls, a).Some?))
    && (forall a :: a in hostOf ==>
          Lookup(t.byHostId, hostOf[a])
          == (match LastReport(calls, a) case None => None case Some(cs) => Some(Snapshot(hostOf[a], a, cs))))
  }

  lemma RememberMirrors(t: Tables, calls: seq<Call>, hostOf: map<string, string>)
    requires calls != [] && calls[|calls| - 1].Remembered? && calls[|calls| - 1].agent in hostOf
    requires OneToOne(hostOf) && Mirrors(t, calls[..|calls| - 1], hostOf)
    ensures var agent := calls[|calls| - 1].agent; Mirrors(RememberHost(t, hostOf[agent], agent), calls, hostOf)
  {}

  lemma ReportMirrors(t: Tables, calls: seq<Call>, hostOf: map<string, string>)
    requires calls != [] && calls[|calls| - 1].Reported? && calls[|calls| - 1].agent in hostOf
    requires OneToOne(hostOf) && Mirrors(t, calls[..|calls| - 1], hostOf)
    ensures var c := calls[|calls| - 1];
      Mirrors(SetContainers(t, c.agent, c.containers, if c.withHost then Some(hostOf[c.agent]) else None), calls, hostOf)
  {
    var c := calls[|calls| - 1];
    var named := if c.withHost then Some(hostOf[c.agent]) else None;
    var host := ResolveHost(t, c.agent, named);
    assert host == (if c.withHost || LastReport(calls[..|calls| - 1], c.agent).Some? then Some(hostOf[c.agent]) else None);
    var q := SetContainers(t, c.agent, c.containers, named);
    forall a | a in hostOf
      ensures a in q.hostIdByUuid <==> LastReport(calls, a).Some?
      ensures Lookup(q.byHostId, hostOf[a])
        == (match LastReport(calls, a) case None => None case Some(cs) => Some(Snapshot(hostOf[a], a, cs)))
    {
      if a != c.agent {
        assert hostOf[a] != hostOf[c.agent];
        assert LastReport(calls, a) == LastReport(calls[..|calls| - 1], a);
      }
    }
  }

  lemma {:induction false} RunMirrors(calls: seq<Call>, hostOf: map<string, string>)
    requires OneToOne(hostOf) && About(calls, hostOf)
    ensures Mirrors(RunCalls(calls, hostOf), calls, hostOf)
  {
    if calls != [] {
      var before := RunCalls(calls[..|calls| - 1], hostOf);
      RunMirrors(calls[..|calls| - 1], hostOf);
      if calls[|calls| - 1].Remembered? {
        RememberMirrors(before, calls, hostOf);
      } else {
        ReportMirrors(before, calls, hostOf);
      }
    }
  }

  /** Looking an agent up by its uuid or by its host gives the same answer: the list it reported last,
      empty if it has reported none, and nothing only if no call ever tied it to its host. */
  lemma LookupsAgree(calls: seq<Call>, hostOf: map<string, string>, agent: string)
    requires OneToOne(hostOf) && About(calls, hostOf) && agent in hostOf
    ensures var t := RunCalls(calls, hostOf);
      && ByUuid(t, agent) == ByHostId(t, hostOf[agent])
      && ByUuid(t, agent) == (match LastReport(calls, agent)
                              case None => None case Some(cs) => Some(Snapshot(hostOf[agent], agent, cs)))
  {
    RunMirrors(calls, hostOf);
  }

  /** Without the correspondence the maps are not one: a second agent on a host answers for the first. */
  lemma SharedHostMixesAgents(host: string, a: string, b: string, cs: seq<ContainerSummary>)
    requires host != "" && a != b && cs != []
    ensures var t := SetContainers(RememberHost(RememberHost(EMPTY, host, a), host, b), b, cs, None);
      ByUuid(t, a) == Some(Snapshot(host, b, cs))
  {}
}
