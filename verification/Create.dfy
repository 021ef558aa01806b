/** Create, delete and resize: the server row, its fields, its cards and their addresses. */
module Create {
  import opened Basics
  import opened BondNames
  import opened Cmdb
  import opened Planning
  import opened Retry
  import opened Attachments
  import opened Tags

  datatype Instance = Instance(
    name: Option<string>, id: Option<string>, networks: seq<Network>, metadata: seq<Tag>, flavor: string)

  /** A create message; `price` is `None` when `total_price` is missing or empty. */
  datatype CreateMsg = CreateMsg(
    instance: Option<Instance>, ports: seq<Port>, project: string, region: string, price: Option<Value>)

  datatype DeleteMsg = DeleteMsg(instance: Option<string>)

  /** A resize message: what it sets, if anything. */
  datatype ResizeMsg = ResizeMsg(instance: Option<string>, price: Option<Value>, flavor: Option<string>, region: string)

  const RECORDED := Report(true, true)

  // -- reading the message -----------------------------------------------------------------

  function Upper(s: string): string {
    if s == [] then []
    else [if 'a' <= s[0] <= 'z' then s[0] - 'a' + 'A' else s[0]] + Upper(s[1..])
  }

  function BeforeDash(s: string): string {
    if s == [] || s[0] == '-' then [] else [s[0]] + BeforeDash(s[1..])
  }

  function DcName(hostname: string): string { Upper(BeforeDash(hostname)) }

  const RAISES_CLOUD := Opts("resource_cloud", true, Some(RECORDED))
  const RAISES_CAP_TENANT := Opts("cap_tenant", true, Some(RECORDED))

  function Recorded(w: World, field: string): (r: World)
    ensures Extends(w, r)
  {
    w.(errors := w.errors + [Entry(field, Message(field), true, true)])
  }

  /** The cap tenant a tag names; a miss is recorded. */
  function FindCapTenant(w: World, tags: seq<Tag>): (s: Stage<Option<CapTenant>>)
    ensures Extends(w, s.w)
  {
    match First(tags, HasKey(CAP_TENANT_TAG))
    case None => Fine(w, None)
    case Some(tag) =>
      var t := Call(w, SelectCapTenant(tag.value), NoSelector, RAISES_CAP_TENANT);
      match t.answer
      case Threw(e) => Broken(t.w, e)
      case Got(TenantRow(tenant)) => Fine(t.w, Some(tenant))
      case Got(_) => Fine(Recorded(t.w, "cap_tenant"), None)
  }

  function IsK8sNode(metadata: seq<Tag>): bool { First(metadata, HasKey(K8S_NODE_TAG)).Some? }

  function Read(m: CreateMsg, i: Instance, hostname: string, uuid: string, cloud: Option<Cloud>, tenant: Option<CapTenant>): Context {
    var tags := CmdbTags(i.metadata);
    Context(
      hostname, uuid, DcName(hostname), m.region, m.project, i.flavor, m.price,
      KeptTags(tags, tenant.Some? || IsK8sNode(i.metadata)), cloud, tenant, ReadyState(tags))
  }

  /** Parse one create message. `None` means it has no instance. */
  function BuildContext(w: World, m: CreateMsg): (s: Stage<Option<Context>>)
    ensures Extends(w, s.w)
  {
    match m.instance
    case None => Fine(w, None)
    case Some(i) =>
      if i.name.None? || i.id.None? then Broken(w, ContractError)
      else
        var t := Call(w, SelectCloud(m.project), NoSelector, RAISES_CLOUD);
        match t.answer
        case Threw(e) => Broken(t.w, e)
        case Got(reply) =>
          var cloud := if reply.CloudRow? then Some(reply.cloud) else None;
          var tenant := FindCapTenant(t.w, WithoutState(CmdbTags(i.metadata)));
          match tenant
          case Broken(w', e) => Broken(w', e)
          case Fine(w', found) => Fine(w', Some(Read(m, i, i.name.value, i.id.value, cloud, found)))
  }

  // -- the server row ----------------------------------------------------------------------------

  const RAISES_SELECT := Opts("server.select", true, None)
  const RAISES_RAILS := Opts("rails.delete", true, None)
  const RAISES_SERVER_DELETE := Opts("server.delete", true, None)
  const RAISES_SERVER_INSERT := Opts("server.insert", true, None)

  function NonEmpty(s: string): Option<string> { if s == "" then None else Some(s) }

  function RemoveRails(w: World, rails: seq<Id>): (s: Stage<()>)
    ensures Extends(w, s.w)
    decreases |rails|
  {
    if rails == [] then Fine(w, ())
    else
      var t := Call(w, DeleteRail(rails[0]), NoSelector, RAISES_RAILS);
      match t.answer
      case Threw(e) => Broken(t.w, e)
      case Got(_) => RemoveRails(t.w, rails[1..])
  }

  function RemoveOne(w: World, doomed: Doomed): (s: Stage<()>)
    ensures Extends(w, s.w)
  {
    var rails := RemoveRails(w, doomed.rails);
    if rails.Broken? then rails
    else
      var t := Call(rails.w, DeleteServer(doomed.server), NoSelector, RAISES_SERVER_DELETE);
      match t.answer
      case Threw(e) => Broken(t.w, e)
      case Got(_) => Fine(t.w, ())
  }

  function RemoveAll(w: World, found: seq<Doomed>): (s: Stage<()>)
    ensures Extends(w, s.w)
    decreases |found|
  {
    if found == [] then Fine(w, ())
    else
      var one := RemoveOne(w, found[0]);
      if one.Broken? then one else RemoveAll(one.w, found[1..])
  }

  /** Delete every server row under this uuid or hostname, and its rails; an empty key is not looked for. */
  function RemoveServer(w: World, uuid: string, hostname: string): (s: Stage<()>)
    ensures Extends(w, s.w)
  {
    var t := Call(w, SelectServers(NonEmpty(hostname), NonEmpty(uuid)), NoSelector, RAISES_SELECT);
    match t.answer
    case Threw(e) => Broken(t.w, e)
    case Got(ServerList(found)) => RemoveAll(t.w, found)
    case Got(_) => Fine(t.w, ())
  }

  function NewServer(ctx: Context): Cols {
    map["hostname" := Text(ctx.hostname), "uuid" := Text(ctx.uuid), "state" := Text("setup"), "importer" := Text(IMPORTER)]
  }

  /** Remove whatever is registered under this hostname or uuid, then insert a fresh row. */
  function Recreate(w: World, ctx: Context): (s: Stage<Id>)
    ensures Extends(w, s.w)
  {
    var removed := RemoveServer(w, ctx.uuid, ctx.hostname);
    if removed.Broken? then Broken(removed.w, removed.exn)
    else
      var t := Call(removed.w, InsertServer(NewServer(ctx)), Once(SelectServerByHostname(ctx.hostname)), RAISES_SERVER_INSERT);
      match t.answer
      case Threw(e) => Broken(t.w, e)
      case Got(ServerRef(id)) => Fine(t.w, id)
      case Got(_) => Broken(t.w, Perm(OtherError))
  }

  // -- the fields -----------------------------------------------------------------------------------

  function UpdateRow(w: World, ctx: Context, mutation: Cols, o: Opts): (t: Turn)
    ensures Extends(w, t.w)
  {
    Call(w, UpdateServers(Some(ctx.hostname), Some(ctx.uuid), mutation), NoSelector, o)
  }

  function WriteOpts(write: FieldWrite): Opts { Opts(write.field, false, Some(Report(write.mark, write.listed))) }

  /** One update per write, so that each failure is attributed to its own field. */
  function ReplayWrites(w: World, ctx: Context, writes: seq<FieldWrite>): (s: Stage<()>)
    ensures Extends(w, s.w)
    decreases |writes|
  {
    if writes == [] then Fine(w, ())
    else
      var t := UpdateRow(w, ctx, writes[0].mutation, WriteOpts(writes[0]));
      match t.answer
      case Threw(e) => Broken(t.w, e)
      case Got(_) => ReplayWrites(t.w, ctx, writes[1..])
  }

  /** One batched update; replayed field by field if it fails permanently. */
  function WriteFields(w: World, ctx: Context): (s: Stage<()>)
    ensures Extends(w, s.w)
  {
    var writes := CreateWrites(ctx, w.db.catalog.refs);
    var batch := Merge(writes);
    if batch == map[] then Broken(w, ContractError)
    else
      var t := UpdateRow(w, ctx, batch, Opts("batch", false, None));
      match t.answer
      case Threw(e) => Broken(t.w, e)
      case Got(reply) => if reply != Nothing then Fine(t.w, ()) else ReplayWrites(t.w, ctx, writes)
  }

  // -- cards and addresses -----------------------------------------------------------------------------

  const RECORDS_ENDPOINT := Opts("network_endpoint", false, Some(RECORDED))
  const RECORDS_IP := Opts("ip", false, Some(RECORDED))

  /** One row per address of a card; an address no prefix covers is recorded and skipped. */
  function PersistAddrs(w: World, dc: string, card: Id, addrs: seq<string>, used: set<Option<string>>): (s: Stage<set<Option<string>>>)
    ensures Extends(w, s.w)
    decreases |addrs|
  {
    if addrs == [] then Fine(w, used)
    else
      var prefix := NetPrefix(w, addrs[0], dc, Some(RECORDED));
      match prefix
      case Broken(w', e) => Broken(w', e)
      case Fine(w', None) => PersistAddrs(Recorded(w', "network_prefix"), dc, card, addrs[1..], used)
      case Fine(w', Some(p)) =>
        var kind := ResolveIpType(p.kind, used);
        var t := Call(w', InsertIp(card, addrs[0], Some(kind), Some(p.id)), Once(SelectIp(addrs[0], card, Some(p.id))), RECORDS_IP);
        match t.answer
        case Threw(e) => Broken(t.w, e)
        case Got(_) => PersistAddrs(t.w, dc, card, addrs[1..], used + {Some(kind)})
  }

  function CardName(card: Card, taken: seq<string>): string {
    if card.placeholder then NextBond(taken) else Bond(OrderOf(card) - 1)
  }

  /** The key that finds this card's row again: the mac of a placeholder, else the name. */
  function CardSelector(server: Id, card: Card, name: string): Selector {
    if card.placeholder then Once(SelectEndpointByMac(server, card.mac)) else Once(SelectEndpointByName(server, name))
  }

  /** One endpoint per card, with its addresses. */
  function PersistCards(w: World, dc: string, server: Id, cards: seq<Card>, taken: seq<string>, used: set<Option<string>>): (s: Stage<()>)
    ensures Extends(w, s.w)
    decreases |cards|
  {
    if cards == [] then Fine(w, ())
    else
      var card := cards[0];
      var name := CardName(card, taken);
      var taken' := if card.placeholder then taken + [name] else taken;
      var t := Call(w, InsertEndpoint(server, name, card.mac, card.name), CardSelector(server, card, name), RECORDS_ENDPOINT);
      match t.answer
      case Threw(e) => Broken(t.w, e)
      case Got(EndpointRef(id, _, _)) =>
        (match PersistAddrs(t.w, dc, id, card.addresses, used)
         case Broken(w', e) => Broken(w', e)
         case Fine(w', used') => PersistCards(w', dc, server, cards[1..], taken', used'))
      case Got(_) => PersistCards(t.w, dc, server, cards[1..], taken', used)
  }

  function Persist(w: World, ctx: Context, server: Id, cards: seq<Card>): (s: Stage<()>)
    ensures Extends(w, s.w)
  {
    PersistCards(w, ctx.dcName, server, cards, BondTaken(cards), {})
  }

  // -- the whole message -----------------------------------------------------------------------------------

  function Marks(): Entry -> bool { (e: Entry) => e.mark }
  function Listed(): Entry -> bool { (e: Entry) => e.listed }

  /** Was any state-error failure recorded? */
  function Failed(errors: seq<Entry>): bool { First(errors, Marks()).Some? }

  function JoinLines(entries: seq<Entry>): string {
    if entries == [] then ""
    else if |entries| == 1 then entries[0].message
    else entries[0].message + "\n" + JoinLines(entries[1..])
  }

  function StatusDetails(errors: seq<Entry>): string { JoinLines(Filter(errors, Listed())) }

  function FinalState(ctx: Context, errors: seq<Entry>): Cols {
    if Failed(errors) then map["state" := Text(ERROR_STATE), "status_details" := Text(StatusDetails(errors))]
    else map["state" := Text(ctx.readyState)]
  }

  const RECORDS_STATE := Opts("state", false, Some(RECORDED))

  function Cards(m: CreateMsg): seq<Card> {
    if m.instance.None? then [] else HostNetworks(m.instance.value.networks, m.ports)
  }

  /** The fields, the cards and the final state of a recreated server. */
  function Fill(w: World, ctx: Context, server: Id, cards: seq<Card>): (o: Outcome)
    ensures Extends(w, o.w)
  {
    var fields := WriteFields(w, ctx);
    if fields.Broken? then Outcome(fields.w, Raised(fields.exn))
    else
      var net := Persist(fields.w, ctx, server, cards);
      if net.Broken? then Outcome(net.w, Raised(net.exn))
      else
        var t := UpdateRow(net.w, ctx, FinalState(ctx, net.w.errors), RECORDS_STATE);
        match t.answer
        case Threw(e) => Outcome(t.w, Raised(e))
        case Got(_) => Outcome(t.w, Returned)
  }

  function CreateServer(w: World, m: CreateMsg): (o: Outcome)
    ensures Extends(w, o.w)
  {
    var ctx := BuildContext(w.(errors := []), m);
    match ctx
    case Broken(w', e) => Outcome(w', Raised(e))
    case Fine(w', None) => Outcome(w', Returned)
    case Fine(w', Some(c)) =>
      var row := Recreate(w', c);
      match row
      case Broken(w'', e) => Outcome(w'', if e == CmdbAbort then Returned else Raised(e))
      case Fine(w'', server) => Fill(w'', c, server, Cards(m))
  }

  // -- delete and resize ---------------------------------------------------------------------------------------

  function Delete(w: World, m: DeleteMsg): (o: Outcome)
    ensures Extends(w, o.w)
  {
    match m.instance
    case None => Outcome(w, Returned)
    case Some(uuid) =>
      var s := RemoveServer(w, uuid, "");
      if s.Broken? then Outcome(s.w, Raised(s.exn)) else Outcome(s.w, Returned)
  }

  function SetColumn(w: World, uuid: string, mutation: Cols, field: string): (o: Outcome)
    ensures Extends(w, o.w)
  {
    var t := Call(w, UpdateServers(None, Some(uuid), mutation), NoSelector, Opts(field, true, None));
    match t.answer
    case Threw(e) => Outcome(t.w, Raised(e))
    case Got(_) => Outcome(t.w, Returned)
  }

  function Resize(w: World, m: ResizeMsg): (o: Outcome)
    ensures Extends(w, o.w)
  {
    match m.instance
    case None => Outcome(w, Returned)
    case Some(uuid) =>
      var paid := if m.price.None? then Outcome(w, Returned)
                  else SetColumn(w, uuid, map["server_monthly_payment" := m.price.value], "server_monthly_payment");
      if paid.status.Raised? || m.flavor.None? then paid
      else SetColumn(paid.w, uuid, map["flavor" := Lookup(map["name" := m.flavor.value, "region_code" := m.region])], "flavor")
  }
}
