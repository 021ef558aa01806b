/** Attach and detach: one address put on, or taken off, a server's cards. */
module Attachments {
  import opened Basics
  import opened BondNames
  import opened Cmdb
  import opened Planning
  import opened Retry

  datatype Status = Returned | Raised(exn: Exn)

  /** The end of one message's processing. */
  datatype Outcome = Outcome(w: World, status: Status)

  /** A stage that either yields a value or raises. */
  datatype Stage<+T> = Fine(w: World, value: T) | Broken(w: World, exn: Exn)

  datatype AttachPort = AttachPort(addr: string, mac: Option<string>)

  /** The parts of an attach message; a resource the message lacks is `None`. */
  datatype AttachMsg = AttachMsg(instance: Option<string>, port: Option<AttachPort>, network: Option<string>, region: string)

  /** The parts of a detach message; `addr` is `None` without `action_data.ip_address`. */
  datatype DetachMsg = DetachMsg(instance: Option<string>, addr: Option<string>)

  // -- shared lookups -------------------------------------------------------------------

  function Covering(addr: string): Prefix -> bool { (p: Prefix) => addr in p.covers }

  /** The source's scan: the first prefix whose network contains the address. */
  method IpInNetPrefixes(addr: string, prefixes: seq<Prefix>) returns (found: Option<Prefix>)
    ensures found == First(prefixes, Covering(addr))
  {
    for i := 0 to |prefixes|
      invariant First(prefixes, Covering(addr)) == First(prefixes[i..], Covering(addr))
    {
      assert prefixes[i..][1..] == prefixes[i + 1..];
      if addr in prefixes[i].covers {
        return Some(prefixes[i]);
      }
    }
    return None;
  }

  function ResolveIpType(kind: string, used: set<Option<string>>): string {
    if (kind == "be" || kind == "fe") && Some(kind) !in used then kind else "int"
  }

  function NetPrefix(w: World, addr: string, dc: string, report: Option<Report>): (s: Stage<Option<Prefix>>)
    ensures Extends(w, s.w)
  {
    var t := Call(w, SelectPrefixes(dc), NoSelector, Opts("network_prefix", false, report));
    match t.answer
    case Threw(e) => Broken(t.w, e)
    case Got(PrefixList(prefixes)) => Fine(t.w, First(prefixes, Covering(addr)))
    case Got(_) => Fine(t.w, None)
  }

  // -- attach ---------------------------------------------------------------------------------

  const RAISES_SERVER := Opts("server.select_one", true, None)
  const LOOKUP_DC := Opts("datacenter.select_one", false, None)
  const RAISES_ENDPOINT_UPDATE := Opts("network_endpoint.update", true, None)
  const RAISES_ENDPOINT := Opts("network_endpoint.insert", true, None)
  const RAISES_IP := Opts("ip.insert", true, None)

  function ByMac(mac: Option<string>): EndpointView -> bool {
    (v: EndpointView) => Truthy(mac) && v.row.mac == mac
  }

  function Orphan(): EndpointView -> bool {
    (v: EndpointView) => v.ips == [] && !Truthy(v.row.mac)
  }

  /** The endpoint an attach reuses: the card with this mac, else one with neither mac nor address. */
  function Choose(endpoints: seq<EndpointView>, mac: Option<string>): Option<EndpointView> {
    var known := First(endpoints, ByMac(mac));
    if known.Some? then known else First(endpoints, Orphan())
  }

  function FillMac(v: EndpointView, mac: Option<string>): Option<string> {
    if Truthy(mac) && !Truthy(v.row.mac) then mac else None
  }

  function FillNotes(v: EndpointView, network: Option<string>): Option<string> {
    if Truthy(network) && !Truthy(v.row.notes) then network else None
  }

  function Given(s: Option<string>): Option<string> { if Truthy(s) then s else None }

  function NameOf(): EndpointView -> string { (v: EndpointView) => v.row.name }

  function UsedKinds(endpoints: seq<EndpointView>): set<Option<string>> {
    set v, ip | v in endpoints && ip in v.ips :: ip.kind
  }

  /** Where the address goes, unless a re-select found that it is already attached. */
  datatype Target = Target(endpoint: Id) | AlreadyThere

  function Reuse(w: World, m: AttachMsg, mac: Option<string>, v: EndpointView): (s: Stage<Target>)
    ensures Extends(w, s.w)
  {
    var newMac, newNotes := FillMac(v, mac), FillNotes(v, m.network);
    if newMac.None? && newNotes.None? then Fine(w, Target(v.row.id))
    else
      var t := Call(w, UpdateEndpoint(v.row.id, newMac, newNotes), NoSelector, RAISES_ENDPOINT_UPDATE);
      match t.answer
      case Threw(e) => Broken(t.w, e)
      case Got(_) => Fine(t.w, Target(v.row.id))
  }

  function NewEndpoint(server: Id, m: AttachMsg, mac: Option<string>, endpoints: seq<EndpointView>): Op {
    InsertEndpoint(server, NextBond(Map(endpoints, NameOf())), Given(mac), Given(m.network))
  }

  function Create(w: World, m: AttachMsg, uuid: string, port: AttachPort, server: Id, endpoints: seq<EndpointView>): (s: Stage<Target>)
    ensures Extends(w, s.w)
  {
    var op := NewEndpoint(server, m, port.mac, endpoints);
    var t := Call(w, op, AttachEndpoint(port.addr, uuid, server, op.name), RAISES_ENDPOINT);
    match t.answer
    case Threw(e) => Broken(t.w, e)
    case Got(EndpointRef(id, _, viaIp)) => if viaIp then Fine(t.w, AlreadyThere) else Fine(t.w, Target(id))
    case Got(_) => Broken(t.w, Perm(OtherError))
  }

  function AttachPrefix(w: World, addr: string, region: string): (s: Stage<Option<Prefix>>)
    ensures Extends(w, s.w)
  {
    var t := Call(w, SelectDatacenter(region), NoSelector, LOOKUP_DC);
    match t.answer
    case Threw(e) => Broken(t.w, e)
    case Got(DatacenterRow(dc)) => NetPrefix(t.w, addr, dc, None)
    case Got(_) => Fine(t.w, None)
  }

  /** The prefix the store has for an attached address. */
  function StorePrefix(catalog: Catalog, region: string, addr: string): Option<Prefix> {
    if region !in catalog.datacenters then None
    else
      var dc := catalog.datacenters[region];
      First(if dc in catalog.prefixes then catalog.prefixes[dc] else [], Covering(addr))
  }

  function NewIp(endpoint: Id, addr: string, prefix: Option<Prefix>, used: set<Option<string>>): (op: Op)
    ensures op.InsertIp? && op.endpointId == endpoint && op.addr == addr
  {
    match prefix
    case Some(p) => InsertIp(endpoint, addr, Some(ResolveIpType(p.kind, used)), Some(p.id))
    case None => InsertIp(endpoint, addr, None, None)
  }

  function AttachIp(w: World, uuid: string, addr: string, op: Op): (o: Outcome)
    ensures Extends(w, o.w)
  {
    var t := Call(w, op, AttachedIp(addr, uuid), RAISES_IP);
    match t.answer
    case Threw(e) => Outcome(t.w, Raised(e))
    case Got(_) => Outcome(t.w, Returned)
  }

  function AttachCard(w: World, m: AttachMsg, uuid: string, port: AttachPort, server: Id, endpoints: seq<EndpointView>): (s: Stage<Target>)
    ensures Extends(w, s.w)
  {
    match Choose(endpoints, port.mac)
    case Some(v) => Reuse(w, m, port.mac, v)
    case None => Create(w, m, uuid, port, server, endpoints)
  }

  /** Attach on a server that was found and does not yet report the address. */
  function AttachOn(w: World, m: AttachMsg, uuid: string, port: AttachPort, server: Id, endpoints: seq<EndpointView>): (o: Outcome)
    ensures Extends(w, o.w)
  {
    var prefix := AttachPrefix(w, port.addr, m.region);
    if prefix.Broken? then Outcome(prefix.w, Raised(prefix.exn))
    else
      var card := AttachCard(prefix.w, m, uuid, port, server, endpoints);
      if card.Broken? then Outcome(card.w, Raised(card.exn))
      else if card.value.AlreadyThere? then Outcome(card.w, Returned)
      else
        AttachIp(card.w, uuid, port.addr, NewIp(card.value.endpoint, port.addr, prefix.value, UsedKinds(endpoints)))
  }

  /** Attach on a server that was found: a repeated delivery is recognised first. */
  function AttachTo(w: World, m: AttachMsg, uuid: string, port: AttachPort, server: Id, endpoints: seq<EndpointView>): (o: Outcome)
    ensures Extends(w, o.w)
  {
    var probe := Call(w, SelectAttachedIp(port.addr, uuid), NoSelector, PROBE);
    match probe.answer
    case Threw(e) => Outcome(probe.w, Raised(e))
    case Got(row) =>
      if row != Nothing then Outcome(probe.w, Returned)
      else AttachOn(probe.w, m, uuid, port, server, endpoints)
  }

  function Attach(w: World, m: AttachMsg): (o: Outcome)
    ensures Extends(w, o.w)
  {
    if m.instance.None? || m.port.None? then Outcome(w, Returned)
    else
      var uuid, port := m.instance.value, m.port.value;
      var found := Call(w, SelectServerByUuid(uuid), NoSelector, RAISES_SERVER);
      match found.answer
      case Threw(e) => Outcome(found.w, Raised(e))
      case Got(ServerRow(server, endpoints)) => AttachTo(found.w, m, uuid, port, server, endpoints)
      case Got(_) => Outcome(found.w, Returned)
  }

  // -- detach -----------------------------------------------------------------------------------

  const RAISES_IP_DELETE := Opts("ip.delete", true, None)
  const RAISES_ENDPOINT_DELETE := Opts("network_endpoint.delete", true, None)

  function Detach(w: World, m: DetachMsg): (o: Outcome)
    ensures Extends(w, o.w)
  {
    if m.addr.None? || m.instance.None? then Outcome(w, Returned)
    else
      var gone := Call(w, DeleteAttachedIps(m.addr.value, m.instance.value), NoSelector, RAISES_IP_DELETE);
      match gone.answer
      case Threw(e) => Outcome(gone.w, Raised(e))
      case Got(_) =>
        var swept := Call(gone.w, SweepEndpoints(m.instance.value), NoSelector, RAISES_ENDPOINT_DELETE);
        match swept.answer
        case Threw(e) => Outcome(swept.w, Raised(e))
        case Got(_) => Outcome(swept.w, Returned)
  }
}
