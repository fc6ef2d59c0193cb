/** The container list on the wire: the server's tolerant parser
    (apps/server/src/agents/container-listed.parser.ts) and the agent's port mapping
    (apps/agent/internal/docker/ports.go). */
module ContainerListed {
  import opened Prelude

  /** A number as JSON.parse yields it: an integer that prints in plain decimal, any other finite one
      with its printed form, or an overflow to infinity. */
  datatype Number = Int(value: int) | Other(text: string) | Infinite

  datatype Json =
    | Null | Bool(b: bool) | Num(n: Number) | Str(s: string) | Arr(items: seq<Json>) | Obj(fields: map<string, Json>)

  datatype ContainerPort = ContainerPort(private: Number, public: string, protocol: string, ip: Option<string>)

  datatype ContainerSummary = ContainerSummary(id: string, name: string, image: string, status: string, state: string,
                                               ports: seq<ContainerPort>, created: Number)

  function Decimal(n: nat): string {
    if n < 10 then [('0' as int + n) as char] else Decimal(n / 10) + [('0' as int + n % 10) as char]
  }

  /** String(n). */
  function Printed(n: Number): string {
    match n
    case Int(value) => if value < 0 then "-" + Decimal(-value) else Decimal(value)
    case Other(text) => text
    case Infinite => "Infinity"
  }

  /** value[key], where a missing key is undefined. */
  function Get(fields: map<string, Json>, key: string): Option<Json> {
    if key in fields then Some(fields[key]) else None
  }

  predicate IsString(v: Option<Json>) { v.Some? && v.value.Str? }

  predicate IsFiniteNumber(v: Option<Json>) { v.Some? && v.value.Num? && !v.value.n.Infinite? }

  function NonEmptyString(v: Option<Json>): Option<string> {
    if IsString(v) && v.value.s != "" then Some(v.value.s) else None
  }

  function ParseContainerPort(value: Json): Option<ContainerPort> {
    if !value.Obj? then None
    else
      var private := Get(value.fields, "private");
      var public := Get(value.fields, "public");
      var protocol := Get(value.fields, "protocol");
      var PrivatePort := Get(value.fields, "PrivatePort");
      var PublicPort := Get(value.fields, "PublicPort");
      var Type := Get(value.fields, "Type");
      if IsFiniteNumber(private) && IsString(public) && IsString(protocol) then
        Some(ContainerPort(private.value.n, public.value.s, protocol.value.s, NonEmptyString(Get(value.fields, "ip"))))
      else if IsFiniteNumber(PrivatePort) && IsString(Type) then
        var printed :=
          if IsFiniteNumber(PublicPort) && PublicPort.value.n != Int(0) then Printed(PublicPort.value.n)
          else if IsString(PublicPort) then PublicPort.value.s
          else "";
        Some(ContainerPort(PrivatePort.value.n, printed, Type.value.s, NonEmptyString(Get(value.fields, "IP"))))
      else None
  }

  /** The results of the entries that parse, in order. */
  function ParseEach<T>(items: seq<Json>, parse: Json -> Option<T>): seq<T> {
    if items == [] then []
    else
      var earlier := ParseEach(items[..|items| - 1], parse);
      match parse(items[|items| - 1]) case Some(t) => earlier + [t] case None => earlier
  }

  function ReadablePorts(items: seq<Json>): seq<ContainerPort> {
    ParseEach(items, ParseContainerPort)
  }

  function ParsedSummary(value: Json): Option<ContainerSummary> {
    if !value.Obj? then None
    else
      var id := Get(value.fields, "id");
      var name := Get(value.fields, "name");
      var image := Get(value.fields, "image");
      var status := Get(value.fields, "status");
      var state := Get(value.fields, "state");
      var created := Get(value.fields, "created");
      var ports := Get(value.fields, "ports");
      if !IsString(id) || id.value.s == "" || !IsString(name) || !IsString(image) || !IsString(status)
         || !IsString(state) || !IsFiniteNumber(created) then None
      else
        var parsed := if ports.Some? && ports.value.Arr? then ReadablePorts(ports.value.items) else [];
        Some(ContainerSummary(id.value.s, name.value.s, image.value.s, status.value.s, state.value.s, parsed, created.value.n))
  }

  function Kept(items: seq<Json>): seq<ContainerSummary> {
    ParseEach(items, ParsedSummary)
  }

  /** payload.containers, or nothing to list when the payload has another shape. */
  function Items(payload: Json): seq<Json> {
    if payload.Obj? && Get(payload.fields, "containers").Some? && payload.fields["containers"].Arr?
    then payload.fields["containers"].items else []
  }

  // ---------- the loops ----------

  method ParseContainerSummary(value: Json) returns (summary: Option<ContainerSummary>)
    ensures summary == ParsedSummary(value)
  {
    if !value.Obj? {
      return None;
    }
    var id := Get(value.fields, "id");
    var name := Get(value.fields, "name");
    var image := Get(value.fields, "image");
    var status := Get(value.fields, "status");
    var state := Get(value.fields, "state");
    var created := Get(value.fields, "created");
    var ports := Get(value.fields, "ports");
    if !IsString(id) || id.value.s == "" || !IsString(name) || !IsString(image) || !IsString(status)
       || !IsString(state) || !IsFiniteNumber(created) {
      return None;
    }
    var parsed := [];
    if ports.Some? && ports.value.Arr? {
      var items := ports.value.items;
      for i := 0 to |items|
        invariant parsed == ReadablePorts(items[..i])
      {
        assert items[..i + 1][..i] == items[..i];
        var port := ParseContainerPort(items[i]);
        if port.Some? {
          parsed := parsed + [port.value];
        }
      }
      assert items[..|items|] == items;
    }
    return Some(ContainerSummary(id.value.s, name.value.s, image.value.s, status.value.s, state.value.s, parsed, created.value.n));
  }

  method ParseContainerListedPayload(payload: Json) returns (containers: seq<ContainerSummary>, dropped: nat)
    ensures containers == Kept(Items(payload))
    ensures |containers| + dropped == |Items(payload)|
  {
    hide ParsedSummary;
    containers, dropped := [], 0;
    if !payload.Obj? || Get(payload.fields, "containers").None? || !payload.fields["containers"].Arr? {
      return;
    }
    var items := payload.fields["containers"].items;
    for i := 0 to |items|
      invariant containers == Kept(items[..i]) && |containers| + dropped == i
    {
      assert items[..i + 1][..i] == items[..i];
      var container := ParseContainerSummary(items[i]);
      match container {
        case Some(c) => containers := containers + [c];
        case None => dropped := dropped + 1;
      }
    }
    assert items[..|items|] == items;
  }

  /** The indices of the entries that parse. */
  ghost function Positions<T>(items: seq<Json>, parse: Json -> Option<T>): seq<nat> {
    if items == [] then []
    else
      var earlier, n := Positions(items[..|items| - 1], parse), |items| - 1;
      if parse(items[n]).Some? then earlier + [n] else earlier
  }

  /** They are increasing and leave out only entries that do not parse ... */
  lemma {:induction false} PositionsComplete<T>(items: seq<Json>, parse: Json -> Option<T>)
    ensures forall i, j :: 0 <= i < j < |Positions(items, parse)| ==> Positions(items, parse)[i] < Positions(items, parse)[j]
    ensures forall k :: k in Positions(items, parse) <==> 0 <= k < |items| && parse(items[k]).Some?
  {
    if items != [] {
      var n := |items| - 1;
      var earlier := Positions(items[..n], parse);
      PositionsComplete(items[..n], parse);
      assert forall i :: 0 <= i < |earlier| ==> earlier[i] in earlier;
    }
  }

  /** ... and what is kept is, in that order, what is found there. With `Kept` this is the container
      list, with `ReadablePorts` the ports of one container. */
  lemma {:induction false} KeptInOrder<T>(items: seq<Json>, parse: Json -> Option<T>, i: nat)
    requires i < |ParseEach(items, parse)|
    ensures |Positions(items, parse)| == |ParseEach(items, parse)| && Positions(items, parse)[i] < |items|
    ensures parse(items[Positions(items, parse)[i]]) == Some(ParseEach(items, parse)[i])
  {
    if items != [] {
      var n := |items| - 1;
      SameLength(items[..n], parse);
      if i < |ParseEach(items[..n], parse)| {
        KeptInOrder(items[..n], parse, i);
      }
    }
  }

  lemma {:induction false} SameLength<T>(items: seq<Json>, parse: Json -> Option<T>)
    ensures |Positions(items, parse)| == |ParseEach(items, parse)|
  {
    if items != [] {
      SameLength(items[..|items| - 1], parse);
    }
  }

  // ---------- an accepted list is a fixpoint ----------

  function PortJson(p: ContainerPort): Json {
    var fields := map["private" := Num(p.private), "public" := Str(p.public), "protocol" := Str(p.protocol)];
    Obj(match p.ip case None => fields case Some(ip) => fields["ip" := Str(ip)])
  }

  function PortsJson(ports: seq<ContainerPort>): seq<Json> {
    if ports == [] then [] else PortsJson(ports[..|ports| - 1]) + [PortJson(ports[|ports| - 1])]
  }

  function SummaryJson(c: ContainerSummary): Json {
    Obj(map["id" := Str(c.id), "name" := Str(c.name), "image" := Str(c.image), "status" := Str(c.status),
            "state" := Str(c.state), "ports" := Arr(PortsJson(c.ports)), "created" := Num(c.created)])
  }

  function ListJson(cs: seq<ContainerSummary>): seq<Json> {
    if cs == [] then [] else ListJson(cs[..|cs| - 1]) + [SummaryJson(cs[|cs| - 1])]
  }

  function PayloadJson(cs: seq<ContainerSummary>): Json {
    Obj(map["containers" := Arr(ListJson(cs))])
  }

  ghost predicate GoodPort(p: ContainerPort) { !p.private.Infinite? && p.ip != Some("") }

  ghost predicate GoodSummary(c: ContainerSummary) {
    c.id != "" && !c.created.Infinite? && forall i :: 0 <= i < |c.ports| ==> GoodPort(c.ports[i])
  }

  /** Exactly the well-formed ports and summaries survive a trip through their own JSON unchanged. */
  lemma PortFixpoint(p: ContainerPort)
    ensures ParseContainerPort(PortJson(p)) == Some(p) <==> GoodPort(p)
  {
    assert "ip"[0] != "IP"[0];
  }

  lemma ParseOneMore<T>(items: seq<Json>, item: Json, parse: Json -> Option<T>, t: T)
    requires parse(item) == Some(t)
    ensures ParseEach(items + [item], parse) == ParseEach(items, parse) + [t]
  {
    assert (items + [item])[..|items|] == items;
  }

  lemma {:induction false} PortsFixpoint(ports: seq<ContainerPort>)
    requires forall i :: 0 <= i < |ports| ==> GoodPort(ports[i])
    ensures ReadablePorts(PortsJson(ports)) == ports
  {
    hide ParseContainerPort, PortJson, GoodPort;
    if ports != [] {
      var n := |ports| - 1;
      PortsFixpoint(ports[..n]);
      PortFixpoint(ports[n]);
      ParseOneMore(PortsJson(ports[..n]), PortJson(ports[n]), ParseContainerPort, ports[n]);
      assert ports == ports[..n] + [ports[n]];
    }
  }

  lemma SummaryFixpoint(c: ContainerSummary)
    requires GoodSummary(c)
    ensures ParsedSummary(SummaryJson(c)) == Some(c)
  {
    hide ReadablePorts, PortsJson, GoodPort;
    PortsFixpoint(c.ports);
  }

  lemma {:induction false} ListFixpoint(cs: seq<ContainerSummary>)
    requires forall i :: 0 <= i < |cs| ==> GoodSummary(cs[i])
    ensures Kept(ListJson(cs)) == cs && |ListJson(cs)| == |cs|
  {
    hide ParsedSummary, SummaryJson, GoodSummary;
    if cs != [] {
      var n := |cs| - 1;
      ListFixpoint(cs[..n]);
      SummaryFixpoint(cs[n]);
      ParseOneMore(ListJson(cs[..n]), SummaryJson(cs[n]), ParsedSummary, cs[n]);
      assert cs == cs[..n] + [cs[n]];
    }
  }

  lemma ReadPortsAreGood(items: seq<Json>)
    ensures forall i :: 0 <= i < |ReadablePorts(items)| ==> GoodPort(ReadablePorts(items)[i])
  {
    var ports := ReadablePorts(items);
    forall i | 0 <= i < |ports| ensures GoodPort(ports[i]) {
      KeptInOrder(items, ParseContainerPort, i);
    }
  }

  lemma ParsedSummaryIsGood(value: Json)
    requires ParsedSummary(value).Some?
    ensures GoodSummary(ParsedSummary(value).value)
  {
    if "ports" in value.fields && value.fields["ports"].Arr? {
      ReadPortsAreGood(value.fields["ports"].items);
    }
  }

  lemma KeptAreGood(items: seq<Json>)
    ensures forall i :: 0 <= i < |Kept(items)| ==> GoodSummary(Kept(items)[i])
  {
    var kept := Kept(items);
    forall i | 0 <= i < |kept| ensures GoodSummary(kept[i]) {
      KeptInOrder(items, ParsedSummary, i);
      ParsedSummaryIsGood(items[Positions(items, ParsedSummary)[i]]);
    }
  }

  /** Whatever was received, what the parser accepted of it parses to itself, and nothing of it is dropped. */
  lemma AcceptedIsFixpoint(payload: Json)
    ensures var accepted := Kept(Items(payload));
      Kept(Items(PayloadJson(accepted))) == accepted && |Items(PayloadJson(accepted))| == |accepted|
  {
    KeptAreGood(Items(payload));
    ListFixpoint(Kept(Items(payload)));
  }

  // ---------- the agent's ports ----------

  /** container.Port of the Docker SDK. */
  type Uint16 = n: nat | n < 65536
  datatype DockerPort = DockerPort(ip: string, privatePort: Uint16, publicPort: Uint16, typ: string)

  /** Port of the agent: `ip` is left out of the JSON when empty. */
  datatype AgentPort = AgentPort(private: int, public: string, protocol: string, ip: string)

  function Mapped(p: DockerPort): AgentPort {
    AgentPort(p.privatePort, if p.publicPort != 0 then Decimal(p.publicPort) else "", p.typ, p.ip)
  }

  function AllMapped(ports: seq<DockerPort>): (r: seq<AgentPort>)
    ensures |r| == |ports|
  {
    if ports == [] then [] else AllMapped(ports[..|ports| - 1]) + [Mapped(ports[|ports| - 1])]
  }

  method PortsFromList(ports: seq<DockerPort>) returns (result: seq<AgentPort>)
    ensures result == AllMapped(ports)
  {
    result := [];
    for i := 0 to |ports|
      invariant result == AllMapped(ports[..i])
    {
      assert ports[..i + 1][..i] == ports[..i];
      var public := "";
      if ports[i].publicPort != 0 {
        public := Decimal(ports[i].publicPort);
      }
      result := result + [AgentPort(ports[i].privatePort, public, ports[i].typ, ports[i].ip)];
    }
    assert ports[..|ports|] == ports;
  }

  /** What agents sent before the mapping existed: the SDK's own JSON, which omits empty IPs and
      unpublished ports. */
  function SdkJson(p: DockerPort): Json {
    var fields := map["PrivatePort" := Num(Int(p.privatePort)), "Type" := Str(p.typ)];
    var withIp := if p.ip == "" then fields else fields["IP" := Str(p.ip)];
    Obj(if p.publicPort == 0 then withIp else withIp["PublicPort" := Num(Int(p.publicPort))])
  }

  function ProtocolJson(p: AgentPort): Json {
    var fields := map["private" := Num(Int(p.private)), "public" := Str(p.public), "protocol" := Str(p.protocol)];
    Obj(if p.ip == "" then fields else fields["ip" := Str(p.ip)])
  }

  function SdkPorts(ports: seq<DockerPort>): seq<Json> {
    if ports == [] then [] else SdkPorts(ports[..|ports| - 1]) + [SdkJson(ports[|ports| - 1])]
  }

  function ProtocolPorts(ports: seq<AgentPort>): seq<Json> {
    if ports == [] then [] else ProtocolPorts(ports[..|ports| - 1]) + [ProtocolJson(ports[|ports| - 1])]
  }

  /** The two wire formats of one port are read alike, and the port comes through whole. */
  lemma PortFormatsAgree(p: DockerPort)
    ensures var whole := ContainerPort(Int(p.privatePort), if p.publicPort == 0 then "" else Decimal(p.publicPort), p.typ,
                                       if p.ip == "" then None else Some(p.ip));
      ParseContainerPort(SdkJson(p)) == Some(whole) && ParseContainerPort(ProtocolJson(Mapped(p))) == Some(whole)
  {
    SdkPortRead(p);
    ProtocolPortRead(p);
  }

  lemma SdkPortRead(p: DockerPort)
    ensures ParseContainerPort(SdkJson(p))
      == Some(ContainerPort(Int(p.privatePort), if p.publicPort == 0 then "" else Decimal(p.publicPort), p.typ,
                            if p.ip == "" then None else Some(p.ip)))
  {
    assert "IP"[0] != "ip"[0];
  }

  lemma ProtocolPortRead(p: DockerPort)
    ensures ParseContainerPort(ProtocolJson(Mapped(p)))
      == Some(ContainerPort(Int(p.privatePort), if p.publicPort == 0 then "" else Decimal(p.publicPort), p.typ,
                            if p.ip == "" then None else Some(p.ip)))
  {}

  /** So an upgraded server reads the same list from an old agent and from a new one. */
  lemma {:induction false} PortListsAgree(ports: seq<DockerPort>)
    ensures ReadablePorts(SdkPorts(ports)) == ReadablePorts(ProtocolPorts(AllMapped(ports)))
    ensures |ReadablePorts(SdkPorts(ports))| == |ports|
    ensures forall i :: 0 <= i < |ports| ==> Some(ReadablePorts(SdkPorts(ports))[i]) == ParseContainerPort(SdkJson(ports[i]))
  {
    hide ParseContainerPort, SdkJson, ProtocolJson, Mapped;
    if ports != [] {
      var n := |ports| - 1;
      var p := ports[n];
      PortListsAgree(ports[..n]);
      PortFormatsAgree(p);
      var whole := ParseContainerPort(SdkJson(p)).value;
      ParseOneMore(SdkPorts(ports[..n]), SdkJson(p), ParseContainerPort, whole);
      var mapped := AllMapped(ports[..n]);
      assert (mapped + [Mapped(p)])[..n] == mapped;
      ParseOneMore(ProtocolPorts(mapped), ProtocolJson(Mapped(p)), ParseContainerPort, whole);
    }
  }

  /** The number that a string of digits spells. */
  ghost function ValueOf(digits: string): int {
    if digits == "" then 0 else 10 * ValueOf(digits[..|digits| - 1]) + (digits[|digits| - 1] as int - '0' as int)
  }

  /** A number is printed in digits that spell it, without leading zeros. */
  lemma {:induction false} DecimalSpells(n: nat)
    ensures ValueOf(Decimal(n)) == n && Decimal(n) != ""
    ensures forall i :: 0 <= i < |Decimal(n)| ==> '0' <= Decimal(n)[i] <= '9'
    ensures n > 0 ==> Decimal(n)[0] != '0'
  {
    if n < 10 {
      assert Decimal(n)[..0] == "" && ValueOf("") == 0;
    } else {
      DecimalSpells(n / 10);
      var d := Decimal(n);
      assert d[..|d| - 1] == Decimal(n / 10);
    }
  }

  // ---------- what is read ----------

  /** The address of a port under its key, unless it is missing, empty or no string. */
  ghost predicate AddressRead(fields: map<string, Json>, key: string, ip: Option<string>) {
    match ip
    case Some(s) => s != "" && key in fields && fields[key] == Str(s)
    case None => key !in fields || !fields[key].Str? || fields[key] == Str("")
  }

  /** A port of the protocol is read as it is. */
  lemma PortRead(fields: map<string, Json>, private: Number, public: string, protocol: string, ip: Option<string>)
    requires "private" in fields && fields["private"] == Num(private) && !private.Infinite?
    requires "public" in fields && fields["public"] == Str(public) && "protocol" in fields && fields["protocol"] == Str(protocol)
    requires AddressRead(fields, "ip", ip)
    ensures ParseContainerPort(Obj(fields)) == Some(ContainerPort(private, public, protocol, ip))
  {}

  /** One of Docker's SDK is read with its public port printed, whatever kind of value that is. */
  lemma LegacyPortRead(fields: map<string, Json>, private: Number, protocol: string, ip: Option<string>)
    requires !(fields.Keys >= {"private", "public", "protocol"} && fields["private"].Num? && !fields["private"].n.Infinite?
               && fields["public"].Str? && fields["protocol"].Str?)
    requires "PrivatePort" in fields && fields["PrivatePort"] == Num(private) && !private.Infinite?
    requires "Type" in fields && fields["Type"] == Str(protocol) && AddressRead(fields, "IP", ip)
    ensures var public :=
        if "PublicPort" !in fields then ""
        else match fields["PublicPort"]
          case Num(Int(v)) => if v > 0 then Decimal(v) else if v < 0 then "-" + Decimal(-v) else ""
          case Num(Other(text)) => text
          case Str(s) => s
          case _ => "";
      ParseContainerPort(Obj(fields)) == Some(ContainerPort(private, public, protocol, ip))
  {}

  /** A value is a port only in one of the two ways. */
  lemma PortReadOnlyIf(value: Json)
    requires ParseContainerPort(value).Some?
    ensures value.Obj?
    ensures var keys := value.fields.Keys;
      || (keys >= {"private", "public", "protocol"} && value.fields["private"].Num? && value.fields["public"].Str?
          && value.fields["protocol"].Str?)
      || (keys >= {"PrivatePort", "Type"} && value.fields["PrivatePort"].Num? && value.fields["Type"].Str?)
    ensures !ParseContainerPort(value).value.private.Infinite?
  {}

  /** A summary is read exactly when all its required fields are there, whatever becomes of its ports. */
  lemma SummaryRead(fields: map<string, Json>, c: ContainerSummary)
    ensures ParsedSummary(Obj(fields)) == Some(c)
      <==> fields.Keys >= {"id", "name", "image", "status", "state", "created"}
           && fields["id"] == Str(c.id) && c.id != "" && fields["name"] == Str(c.name) && fields["image"] == Str(c.image)
           && fields["status"] == Str(c.status) && fields["state"] == Str(c.state)
           && fields["created"] == Num(c.created) && !c.created.Infinite?
           && c.ports == (if "ports" in fields && fields["ports"].Arr? then ReadablePorts(fields["ports"].items) else [])
  {
    hide ReadablePorts;
  }

  /** The list is the array under `containers`; a payload without one lists nothing. */
  lemma ItemsRead(payload: Json, items: seq<Json>)
    ensures payload.Obj? && "containers" in payload.fields && payload.fields["containers"] == Arr(items) ==> Items(payload) == items
    ensures !payload.Obj? || "containers" !in payload.fields || !payload.fields["containers"].Arr? ==> Items(payload) == []
  {}
}
