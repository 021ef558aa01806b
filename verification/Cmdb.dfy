/**
 The inventory store, the requests the handler sends it, and the world one
 message runs in: a store, an unbounded tape of faults, whatever other messages
 do to the store in between, and the log of what was sent.
 */
module Cmdb {
  import opened Basics

  /** Keys are minted per session, so two schedules can be compared row by row. */
  datatype Id = Id(session: nat, n: nat)

  /** A column value: null, plain text, or a lookup of another class by its fields. */
  datatype Value = Null | Text(text: string) | Lookup(fields: map<string, string>)
  type Cols = map<string, Value>

  datatype Server = Server(id: Id, cols: Cols)
  datatype Rail = Rail(id: Id, serverId: Id)
  datatype Endpoint = Endpoint(id: Id, serverId: Id, name: string, mac: Option<string>, notes: Option<string>)
  datatype Ip = Ip(id: Id, endpointId: Id, addr: string, kind: Option<string>, prefix: Option<Id>)

  /** A network prefix; `covers` stands for the addresses its network contains. */
  datatype Prefix = Prefix(id: Id, kind: string, covers: set<string>)
  datatype Cloud = Cloud(id: string, responsible: Option<string>, costCenter: Option<string>)
  datatype CapTenant = CapTenant(owner: Option<string>, costCenter: Option<string>)

  /** Classes the handler only reads, and the column values the CMDB refuses. */
  datatype Catalog = Catalog(
    datacenters: map<string, string>,
    prefixes: map<string, seq<Prefix>>,
    clouds: map<string, Cloud>,
    tenants: map<string, CapTenant>,
    refs: set<string>,                 // server columns that refer to another class
    refused: set<(string, Value)>)

  datatype Db = Db(
    servers: seq<Server>, rails: seq<Rail>, endpoints: seq<Endpoint>, ips: seq<Ip>, catalog: Catalog)

  // -- row predicates ----------------------------------------------------------

  predicate Is(s: Server, column: string, value: string) {
    column in s.cols && s.cols[column] == Text(value)
  }

  predicate WhereServer(s: Server, hostname: Option<string>, uuid: Option<string>) {
    && (hostname.Some? ==> Is(s, "hostname", hostname.value))
    && (uuid.Some? ==> Is(s, "uuid", uuid.value))
  }

  predicate AnyServer(s: Server, hostname: Option<string>, uuid: Option<string>) {
    || (hostname.Some? && Is(s, "hostname", hostname.value))
    || (uuid.Some? && Is(s, "uuid", uuid.value))
  }

  /** Some server row with this key carries this uuid. */
  predicate ServerHasUuid(db: Db, id: Id, uuid: string) {
    exists s :: s in db.servers && s.id == id && Is(s, "uuid", uuid)
  }

  predicate EndpointOnUuid(db: Db, id: Id, uuid: string) {
    exists e :: e in db.endpoints && e.id == id && ServerHasUuid(db, e.serverId, uuid)
  }

  /** The row the attach probe looks for: this address on a server with this uuid. */
  predicate Attached(db: Db, ip: Ip, addr: string, uuid: string) {
    ip.addr == addr && EndpointOnUuid(db, ip.endpointId, uuid)
  }

  predicate HasIps(db: Db, id: Id) {
    exists ip :: ip in db.ips && ip.endpointId == id
  }

  // Row selections, as functions so that each has one name.
  function AttachedTo(db: Db, addr: string, uuid: string): Ip -> bool { ip => Attached(db, ip, addr, uuid) }
  function NotAttachedTo(db: Db, addr: string, uuid: string): Ip -> bool { ip => !Attached(db, ip, addr, uuid) }
  function KeptOnSweep(db: Db, uuid: string): Endpoint -> bool {
    (e: Endpoint) => HasIps(db, e.id) || !ServerHasUuid(db, e.serverId, uuid)
  }
  function SweptOn(db: Db, uuid: string): Endpoint -> bool {
    (e: Endpoint) => !HasIps(db, e.id) && ServerHasUuid(db, e.serverId, uuid)
  }
  function OnServer(id: Id): Endpoint -> bool { (e: Endpoint) => e.serverId == id }
  function OnEndpoint(id: Id): Ip -> bool { (ip: Ip) => ip.endpointId == id }
  function RailOf(id: Id): Rail -> bool { (r: Rail) => r.serverId == id }
  function Matching(hostname: Option<string>, uuid: Option<string>): Server -> bool {
    (s: Server) => WhereServer(s, hostname, uuid)
  }
  function MatchingAny(hostname: Option<string>, uuid: Option<string>): Server -> bool {
    (s: Server) => AnyServer(s, hostname, uuid)
  }
  function IsServer(id: Id): Server -> bool { (s: Server) => s.id == id }
  function IsRail(id: Id): Rail -> bool { (r: Rail) => r.id == id }
  function NotServer(id: Id): Server -> bool { (s: Server) => s.id != id }
  function NotRail(id: Id): Rail -> bool { (r: Rail) => r.id != id }
  function WithId(id: Id): Endpoint -> bool { (e: Endpoint) => e.id == id }
  function Named(serverId: Id, name: string): Endpoint -> bool {
    (e: Endpoint) => e.serverId == serverId && e.name == name
  }
  function WithMac(serverId: Id, mac: Option<string>): Endpoint -> bool {
    (e: Endpoint) => e.serverId == serverId && e.mac == mac
  }
  function SameIp(addr: string, endpointId: Id, prefix: Option<Id>): Ip -> bool {
    (ip: Ip) => ip.addr == addr && ip.endpointId == endpointId && ip.prefix == prefix
  }

  // -- requests ------------------------------------------------------------------

  datatype Op =
    | SelectServerByUuid(uuid: string)
    | SelectServerByHostname(hostname: string)
    | SelectServers(anyHostname: Option<string>, anyUuid: Option<string>)
    | InsertServer(cols: Cols)
    | UpdateServers(whereHostname: Option<string>, whereUuid: Option<string>, mutation: Cols)
    | DeleteServer(server: Id)
    | DeleteRail(rail: Id)
    | SelectEndpointByName(serverId: Id, name: string)
    | SelectEndpointByMac(serverId: Id, mac: Option<string>)
    | InsertEndpoint(serverId: Id, name: string, mac: Option<string>, notes: Option<string>)
    | UpdateEndpoint(endpoint: Id, newMac: Option<string>, newNotes: Option<string>)
    | SweepEndpoints(uuid: string)
    | SelectAttachedIp(addr: string, uuid: string)
    | SelectIp(addr: string, endpointId: Id, prefix: Option<Id>)
    | InsertIp(endpointId: Id, addr: string, kind: Option<string>, prefix: Option<Id>)
    | DeleteAttachedIps(addr: string, uuid: string)
    | SelectCloud(project: string)
    | SelectCapTenant(tenant: string)
    | SelectDatacenter(region: string)
    | SelectPrefixes(dc: string)
  {
    predicate Insert() { InsertServer? || InsertEndpoint? || InsertIp? }

    predicate Write() {
      Insert() || UpdateServers? || DeleteServer? || DeleteRail? || UpdateEndpoint? || SweepEndpoints?
      || DeleteAttachedIps?
    }
  }

  /** One endpoint of a server with the addresses on it, as attach reads them. */
  datatype EndpointView = EndpointView(row: Endpoint, ips: seq<Ip>)

  /** A server found for removal, with the keys of its rails. */
  datatype Doomed = Doomed(server: Id, rails: seq<Id>)

  datatype Reply =
    | Nothing
    | ServerRow(server: Id, endpoints: seq<EndpointView>)
    | ServerRef(server: Id)
    | ServerList(found: seq<Doomed>)
    | EndpointRef(endpoint: Id, name: string, viaIp: bool)
    | IpRef(ip: Id, onEndpoint: Id, onName: string)
    | Changed(rows: nat)
    | CloudRow(cloud: Cloud)
    | TenantRow(tenant: CapTenant)
    | DatacenterRow(dc: string)
    | PrefixList(prefixes: seq<Prefix>)

  /** What classification makes of a failure: transport is retried, the rest is permanent. */
  datatype Permanent = DataError | KeyError | OtherError
  datatype Exn =
    | Transport
    | Perm(why: Permanent)
    | CmdbAbort
    | ContractError

  datatype Answer = Got(reply: Reply) | Threw(exn: Exn)

  // -- what a request does to the store -------------------------------------------

  function ViewOf(db: Db, id: Id): seq<EndpointView> {
    Map(Filter(db.endpoints, OnServer(id)), (e: Endpoint) => EndpointView(e, Filter(db.ips, OnEndpoint(e.id))))
  }

  function DoomedRow(db: Db): Server -> Doomed {
    (s: Server) => Doomed(s.id, Map(Filter(db.rails, RailOf(s.id)), (r: Rail) => r.id))
  }

  function Mutated(hostname: Option<string>, uuid: Option<string>, mutation: Cols): Server -> Server {
    (s: Server) => if WhereServer(s, hostname, uuid) then s.(cols := s.cols + mutation) else s
  }

  function Filled(id: Id, mac: Option<string>, notes: Option<string>): Endpoint -> Endpoint {
    (e: Endpoint) =>
      if e.id != id then e
      else e.(mac := if mac.Some? then mac else e.mac, notes := if notes.Some? then notes else e.notes)
  }

  /** The CMDB refuses a write that names a value it cannot resolve. */
  predicate Accepted(db: Db, mutation: Cols) {
    forall k :: k in mutation ==> (k, mutation[k]) !in db.catalog.refused
  }

  predicate Accepts(db: Db, op: Op) {
    op.UpdateServers? ==> Accepted(db, op.mutation)
  }

  /** The store after `op` lands, with `id` the key an insert is given. */
  function Commit(db: Db, op: Op, id: Id): (r: Db)
    ensures r.catalog == db.catalog
  {
    match op
    case InsertServer(cols) => db.(servers := db.servers + [Server(id, cols)])
    case UpdateServers(h, u, m) => if Accepted(db, m) then db.(servers := Map(db.servers, Mutated(h, u, m))) else db
    case DeleteServer(s) => db.(servers := Filter(db.servers, NotServer(s)))
    case DeleteRail(r) => db.(rails := Filter(db.rails, NotRail(r)))
    case InsertEndpoint(s, name, mac, notes) => db.(endpoints := db.endpoints + [Endpoint(id, s, name, mac, notes)])
    case UpdateEndpoint(e, mac, notes) => db.(endpoints := Map(db.endpoints, Filled(e, mac, notes)))
    case SweepEndpoints(u) => db.(endpoints := Filter(db.endpoints, KeptOnSweep(db, u)))
    case InsertIp(e, addr, kind, prefix) => db.(ips := db.ips + [Ip(id, e, addr, kind, prefix)])
    case DeleteAttachedIps(addr, u) => db.(ips := Filter(db.ips, NotAttachedTo(db, addr, u)))
    case _ => db
  }

  function EndpointName(db: Db, id: Id): string {
    match First(db.endpoints, WithId(id))
    case Some(e) => e.name
    case None => ""
  }

  /** What the store answers `op` when the reply arrives. */
  function Reads(db: Db, op: Op, id: Id): (r: Reply)
    ensures op.Write() ==> r != Nothing
  {
    match op
    case SelectServerByUuid(u) =>
      (match First(db.servers, Matching(None, Some(u)))
       case Some(s) => ServerRow(s.id, ViewOf(db, s.id))
       case None => Nothing)
    case SelectServerByHostname(h) =>
      (match First(db.servers, Matching(Some(h), None))
       case Some(s) => ServerRef(s.id)
       case None => Nothing)
    case SelectServers(h, u) => ServerList(Map(Filter(db.servers, MatchingAny(h, u)), DoomedRow(db)))
    case InsertServer(_) => ServerRef(id)
    case UpdateServers(h, u, _) => Changed(|Filter(db.servers, Matching(h, u))|)
    case DeleteServer(s) => Changed(|Filter(db.servers, IsServer(s))|)
    case DeleteRail(r) => Changed(|Filter(db.rails, IsRail(r))|)
    case SelectEndpointByName(s, name) =>
      (match First(db.endpoints, Named(s, name))
       case Some(e) => EndpointRef(e.id, e.name, false)
       case None => Nothing)
    case SelectEndpointByMac(s, mac) =>
      (match First(db.endpoints, WithMac(s, mac))
       case Some(e) => EndpointRef(e.id, e.name, false)
       case None => Nothing)
    case InsertEndpoint(_, name, _, _) => EndpointRef(id, name, false)
    case UpdateEndpoint(e, _, _) => Changed(|Filter(db.endpoints, WithId(e))|)
    case SweepEndpoints(u) => Changed(|Filter(db.endpoints, SweptOn(db, u))|)
    case SelectAttachedIp(addr, u) =>
      (match First(db.ips, AttachedTo(db, addr, u))
       case Some(ip) => IpRef(ip.id, ip.endpointId, EndpointName(db, ip.endpointId))
       case None => Nothing)
    case SelectIp(addr, e, prefix) =>
      (match First(db.ips, SameIp(addr, e, prefix))
       case Some(ip) => IpRef(ip.id, ip.endpointId, EndpointName(db, ip.endpointId))
       case None => Nothing)
    case InsertIp(e, _, _, _) => IpRef(id, e, "")
    case DeleteAttachedIps(addr, u) => Changed(|Filter(db.ips, AttachedTo(db, addr, u))|)
    case SelectCloud(p) => if p in db.catalog.clouds then CloudRow(db.catalog.clouds[p]) else Nothing
    case SelectCapTenant(t) => if t in db.catalog.tenants then TenantRow(db.catalog.tenants[t]) else Nothing
    case SelectDatacenter(r) => if r in db.catalog.datacenters then DatacenterRow(db.catalog.datacenters[r]) else Nothing
    case SelectPrefixes(dc) => PrefixList(if dc in db.catalog.prefixes then db.catalog.prefixes[dc] else [])
  }

  // -- one message's own rows, and what others may do meanwhile ---------------------

  /** The hostnames and uuids one message names. */
  datatype Scope = Scope(hostnames: set<string>, uuids: set<string>)

  /** A server row this message may read or write: it names it, or it inserted it. */
  predicate InScope(s: Server, scope: Scope, session: nat) {
    || s.id.session == session
    || ("hostname" in s.cols && s.cols["hostname"].Text? && s.cols["hostname"].text in scope.hostnames)
    || ("uuid" in s.cols && s.cols["uuid"].Text? && s.cols["uuid"].text in scope.uuids)
  }

  function OwnServers(scope: Scope, session: nat): Server -> bool { s => InScope(s, scope, session) }
  function OwnRails(ids: set<Id>): Rail -> bool { (r: Rail) => r.serverId in ids }
  function OwnEndpoints(ids: set<Id>): Endpoint -> bool { (e: Endpoint) => e.serverId in ids }
  function OwnIps(ids: set<Id>): Ip -> bool { (ip: Ip) => ip.endpointId in ids }

  function ServerIds(db: Db): (r: set<Id>) { set s | s in db.servers :: s.id }
  function EndpointIds(db: Db): (r: set<Id>) { set e | e in db.endpoints :: e.id }

  /** The part of the store that belongs to one message. */
  function View(db: Db, scope: Scope, session: nat): (r: Db)
    ensures r.catalog == db.catalog
  {
    var servers := Filter(db.servers, OwnServers(scope, session));
    var mine := set s | s in servers :: s.id;
    var endpoints := Filter(db.endpoints, OwnEndpoints(mine));
    var cards := set e | e in endpoints :: e.id;
    Db(servers, Filter(db.rails, OwnRails(mine)), endpoints, Filter(db.ips, OwnIps(cards)), db.catalog)
  }

  // -- the world one message runs in ------------------------------------------------

  /** How one request fares. `ReplyLost` is the dangerous one: it landed, and nobody knows. */
  datatype Fault = Replies | NotSent | ReplyLost | Rejected(why: Permanent)

  datatype Event = Sent(op: Op, fault: Fault, answer: Answer) | Slept(seconds: real)

  /** One recorded field failure. */
  datatype Entry = Entry(field: string, message: string, mark: bool, listed: bool)

  /** The names one message carries, the session it is given keys in, and its first free key. */
  datatype Party = Party(scope: Scope, session: nat, minted: nat)

  /** A request of some message that landed, and the key it was given if it was an insert. */
  datatype Request = Request(party: Party, op: Op, id: Id)

  /** The store after these requests, one after the other. */
  function Apply(db: Db, rs: seq<Request>): (r: Db)
    ensures r.catalog == db.catalog
  {
    if rs == [] then db
    else
      var last := rs[|rs| - 1];
      Commit(Apply(db, rs[..|rs| - 1]), last.op, last.id)
  }

  /** A store several messages share: how it began, who we are, who the others are, and what
      requests of theirs land before each of ours. */
  datatype Crowd = Crowd(start: Db, me: Party, others: set<Party>, asks: seq<seq<Request>>)

  /** One request sent: the store it met, the key at hand, and its fate. */
  datatype Step = Step(met: Db, op: Op, id: Id, fault: Fault)

  datatype World = World(
    db: Db,
    tape: seq<Fault>,      // the fate of the coming requests; past its end every request replies
    dice: seq<real>,       // the jitter of the coming sleeps
    scope: Scope,
    session: nat,
    minted: nat,           // keys handed to this session so far
    budget: int,           // attempts per CMDB operation
    log: seq<Event>,
    errors: seq<Entry>,
    crowd: Crowd,
    trail: seq<Step>)      // the requests sent so far

  datatype Turn = Turn(w: World, answer: Answer)

  /** Distinct keys: what a primary key gives. */
  predicate Keyed(db: Db) {
    && (forall i, j :: 0 <= i < j < |db.servers| ==> db.servers[i].id != db.servers[j].id)
    && (forall i, j :: 0 <= i < j < |db.rails| ==> db.rails[i].id != db.rails[j].id)
    && (forall i, j :: 0 <= i < j < |db.endpoints| ==> db.endpoints[i].id != db.endpoints[j].id)
    && (forall i, j :: 0 <= i < j < |db.ips| ==> db.ips[i].id != db.ips[j].id)
  }

  /** No row carries or refers to a key this session has yet to be given. */
  predicate Unborn(db: Db, session: nat, minted: nat) {
    && (forall s :: s in db.servers && s.id.session == session ==> s.id.n < minted)
    && (forall r :: r in db.rails && r.serverId.session == session ==> r.serverId.n < minted)
    && (forall e :: e in db.endpoints && e.id.session == session ==> e.id.n < minted)
    && (forall e :: e in db.endpoints && e.serverId.session == session ==> e.serverId.n < minted)
    && (forall ip :: ip in db.ips && ip.id.session == session ==> ip.id.n < minted)
    && (forall ip :: ip in db.ips && ip.endpointId.session == session ==> ip.endpointId.n < minted)
  }

  predicate Sound(w: World) {
    Keyed(w.db) && Unborn(w.db, w.session, w.minted)
  }

  /** What others ask for before request number `k`. */
  function Chunk(asks: seq<seq<Request>>, k: nat): seq<Request> { if k < |asks| then asks[k] else [] }

  /** The store the next request meets. */
  function Met(w: World): (db: Db)
    ensures db.catalog == w.db.catalog
    ensures w.crowd.asks == [] ==> db == w.db
  {
    Apply(w.db, Chunk(w.crowd.asks, |w.trail|))
  }
}
