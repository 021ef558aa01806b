/** The handler as the source writes it: loops and early exits over one store, each proved equal to its specification. */
module Handler {
  import opened Basics
  import opened BondNames
  import opened Cmdb
  import opened Planning
  import opened Retry
  import opened RetryProofs
  import opened Attachments
  import opened Tags
  import opened Create
  import opened Runs

  /** A value, or what was raised instead. */
  datatype Result<+T> = Ok(value: T) | Err(exn: Exn)

  function AsStage<T>(w: World, r: Result<T>): Stage<T> {
    match r
    case Ok(value) => Stage.Fine(w, value)
    case Err(e) => Broken(w, e)
  }

  function AsOutcome(w: World, r: Result<()>): Outcome {
    match r
    case Ok(_) => Outcome(w, Returned)
    case Err(e) => Outcome(w, Raised(e))
  }

  // -- one round of the retry loop, as the engine's two functions unfold ------------------------

  lemma CallStarts(w: World, op: Op, sel: Selector, o: Opts)
    ensures Attempts(w, op, sel, o, 1) == Call(w, op, sel, o)
  {
    hide Attempts;
  }

  lemma RoundStarts(w: World, op: Op, sel: Selector, o: Opts, attempt: nat)
    requires 1 <= attempt <= Tries(w)
    ensures sel.NoSelector? || attempt == 1 ==> Attempts(w, op, sel, o, attempt) == Issue(w, op, sel, o, attempt)
    ensures !sel.NoSelector? && attempt > 1 ==>
      var found := Reselect(w, sel);
      Attempts(w, op, sel, o, attempt) ==
        if found.answer.Threw? then
          if attempt >= Tries(w) then found else Attempts(Nap(found.w, attempt), op, sel, o, attempt + 1)
        else if found.answer.reply != Nothing then found
        else Issue(found.w, op, sel, o, attempt)
  {
    hide Exchange, Reselect, Issue;
  }

  lemma RoundEnds(w: World, op: Op, sel: Selector, o: Opts, attempt: nat)
    requires 1 <= attempt <= Tries(w)
    ensures
      var sent := Exchange(w, op);
      Issue(w, op, sel, o, attempt) ==
        if sent.answer.Got? then sent
        else if sent.answer.exn.Perm? then Fail(sent.w, o)
        else if attempt >= Tries(w) then sent
        else Attempts(Nap(sent.w, attempt), op, sel, o, attempt + 1)
  {
    hide Exchange, Reselect;
  }

  class InstanceHandler {
    var w: World

    constructor (w: World)
      ensures this.w == w
    {
      this.w := w;
    }

    // -- the retry engine --------------------------------------------------------------------

    /** One request over the wire. */
    method Send(op: Op) returns (answer: Answer)
      modifies this
      ensures Turn(w, answer) == Exchange(old(w), op)
    {
      var t := Exchange(w, op);
      w := t.w;
      answer := t.answer;
    }

    /** Look for the row a lost insert may have left behind. */
    method RecoverInsert(sel: Selector) returns (answer: Answer)
      requires !sel.NoSelector?
      modifies this
      ensures Turn(w, answer) == Reselect(old(w), sel)
      decreases Weight(sel), 0
    {
      hide Exchange, Attempts;
      match sel
      case Once(query) => answer := Send(query);
      case AttachedIp(addr, uuid) => answer := FindAttachedIp(addr, uuid);
      case AttachEndpoint(addr, uuid, server, name) =>
        answer := FindAttachedIp(addr, uuid);
        if answer.Got? {
          if answer.reply.IpRef? {
            answer := Got(EndpointRef(answer.reply.onEndpoint, answer.reply.onName, true));
          } else {
            answer := Send(SelectEndpointByName(server, name));
          }
        }
    }

    method FindAttachedIp(addr: string, uuid: string) returns (answer: Answer)
      modifies this
      ensures Turn(w, answer) == Attempts(old(w), SelectAttachedIp(addr, uuid), NoSelector, PROBE, 1)
      ensures w.errors == old(w).errors && (answer.Threw? ==> answer.exn == Transport)
      decreases 0, 2
    {
      hide Attempts;
      ProbeSilent(w, addr, uuid, 1);
      answer := CmdbCall(SelectAttachedIp(addr, uuid), NoSelector, PROBE);
    }

    /** Send the request of one attempt; `over` is false when it is to be tried again. */
    method SendAttempt(op: Op, sel: Selector, o: Opts, attempt: nat) returns (over: bool, answer: Answer)
      requires 1 <= attempt <= Tries(w)
      modifies this
      ensures Tries(w) == Tries(old(w))
      ensures over ==> Turn(w, answer) == Issue(old(w), op, sel, o, attempt)
      ensures !over ==> attempt < Tries(w) && Attempts(w, op, sel, o, attempt + 1) == Issue(old(w), op, sel, o, attempt)
      decreases Weight(sel), 0
    {
      RoundEnds(w, op, sel, o, attempt);
      hide Exchange, Issue, Attempts;
      answer := Send(op);
      if answer.Got? {
        return true, answer;
      }
      if answer.exn.Perm? {
        var failed := Fail(w, o);
        w := failed.w;
        return true, failed.answer;
      }
      if attempt >= Tries(w) {
        return true, answer;
      }
      w := Nap(w, attempt);
      return false, answer;
    }

    /** Run one CMDB operation with retry, classification and reporting. */
    method CmdbCall(op: Op, sel: Selector, o: Opts) returns (answer: Answer)
      modifies this
      ensures Turn(w, answer) == Call(old(w), op, sel, o)
      decreases Weight(sel), 1
    {
      hide Exchange, Reselect, Attempts, Issue, Call, Fail;
      var tries := Tries(w);
      var attempt := 1;
      ghost var goal := Call(w, op, sel, o);
      CallStarts(w, op, sel, o);
      while true
        invariant 1 <= attempt <= tries && tries == Tries(w)
        invariant Attempts(w, op, sel, o, attempt) == goal
        decreases tries - attempt
      {
        RoundStarts(w, op, sel, o, attempt);
        var over;
        if !sel.NoSelector? && attempt > 1 {
          answer := RecoverInsert(sel);
          if answer.Threw? {
            if attempt >= tries {
              return;
            }
            w := Nap(w, attempt);
            attempt := attempt + 1;
            continue;
          }
          if answer.reply != Nothing {
            return;
          }
        }
        over, answer := SendAttempt(op, sel, o, attempt);
        if over {
          return;
        }
        attempt := attempt + 1;
      }
    }

    // -- lookups -----------------------------------------------------------------------------

    /** The prefix whose network contains the address, or none. */
    method GetNetPrefixByIp(addr: string, dc: string, report: Option<Report>) returns (r: Result<Option<Prefix>>)
      modifies this
      ensures AsStage(w, r) == NetPrefix(old(w), addr, dc, report)
    {
      hide Call;
      var answer := CmdbCall(SelectPrefixes(dc), NoSelector, Opts("network_prefix", false, report));
      if answer.Threw? {
        return Err(answer.exn);
      }
      if !answer.reply.PrefixList? {
        return Ok(None);
      }
      var found := IpInNetPrefixes(addr, answer.reply.prefixes);
      return Ok(found);
    }

    // -- the server row ----------------------------------------------------------------------

    /** Delete every server row matching this uuid or hostname, and their rails. */
    method DeleteServerRows(uuid: string, hostname: string) returns (r: Result<()>)
      modifies this
      ensures AsStage(w, r) == RemoveServer(old(w), uuid, hostname)
    {
      hide Call;
      var answer := CmdbCall(SelectServers(NonEmpty(hostname), NonEmpty(uuid)), NoSelector, RAISES_SELECT);
      if answer.Threw? {
        return Err(answer.exn);
      }
      if !answer.reply.ServerList? {
        return Ok(());
      }
      var servers := answer.reply.found;
      ghost var start := w;
      for i := 0 to |servers|
        invariant RemoveAll(w, servers[i..]) == RemoveAll(start, servers)
      {
        var s := servers[i];
        assert servers[i..][1..] == servers[i + 1..];
        ghost var before := w;
        for j := 0 to |s.rails|
          invariant RemoveRails(w, s.rails[j..]) == RemoveRails(before, s.rails)
        {
          assert s.rails[j..][1..] == s.rails[j + 1..];
          answer := CmdbCall(DeleteRail(s.rails[j]), NoSelector, RAISES_RAILS);
          if answer.Threw? {
            return Err(answer.exn);
          }
        }
        answer := CmdbCall(DeleteServer(s.server), NoSelector, RAISES_SERVER_DELETE);
        if answer.Threw? {
          return Err(answer.exn);
        }
      }
      return Ok(());
    }

    /** Remove whatever is registered under this hostname or uuid, insert a fresh row, and return its key. */
    method RecreateServerRow(ctx: Context) returns (r: Result<Id>)
      modifies this
      ensures AsStage(w, r) == Recreate(old(w), ctx)
    {
      hide Call, RemoveServer;
      var removed := DeleteServerRows(ctx.uuid, ctx.hostname);
      if removed.Err? {
        return Err(removed.exn);
      }
      var answer := CmdbCall(
        InsertServer(NewServer(ctx)), Once(SelectServerByHostname(ctx.hostname)), RAISES_SERVER_INSERT);
      if answer.Threw? {
        return Err(answer.exn);
      }
      if !answer.reply.ServerRef? {
        return Err(Perm(OtherError));
      }
      return Ok(answer.reply.server);
    }

    // -- the fields --------------------------------------------------------------------------

    method UpdateServer(mutation: Cols, hostname: Option<string>, uuid: Option<string>, o: Opts) returns (answer: Answer)
      modifies this
      ensures Turn(w, answer) == Call(old(w), UpdateServers(hostname, uuid, mutation), NoSelector, o)
    {
      answer := CmdbCall(UpdateServers(hostname, uuid, mutation), NoSelector, o);
    }

    /** One batched update, replayed field by field if it fails permanently. */
    method WriteCreateFields(ctx: Context) returns (r: Result<()>)
      modifies this
      ensures AsStage(w, r) == WriteFields(old(w), ctx)
    {
      hide Call, CreateWrites, Merge;
      var writes := BuildCreateWrites(ctx, w.db.catalog.refs);
      var batch := MergeWrites(writes);
      if batch == map[] {
        return Err(ContractError);
      }
      var answer := UpdateServer(batch, Some(ctx.hostname), Some(ctx.uuid), Opts("batch", false, None));
      if answer.Threw? {
        return Err(answer.exn);
      }
      if answer.reply != Nothing {
        return Ok(());
      }
      ghost var start := w;
      for i := 0 to |writes|
        invariant ReplayWrites(w, ctx, writes[i..]) == ReplayWrites(start, ctx, writes)
      {
        assert writes[i..][1..] == writes[i + 1..];
        answer := UpdateServer(writes[i].mutation, Some(ctx.hostname), Some(ctx.uuid), WriteOpts(writes[i]));
        if answer.Threw? {
          return Err(answer.exn);
        }
      }
      return Ok(());
    }

    // -- cards and addresses --------------------------------------------------------------------

    /** One ip per address of a card; `used` grows with the kinds handed out. */
    method PersistAddresses(dc: string, card: Id, addrs: seq<string>, used: set<Option<string>>) returns (r: Result<set<Option<string>>>)
      modifies this
      ensures AsStage(w, r) == PersistAddrs(old(w), dc, card, addrs, used)
    {
      hide Call, NetPrefix;
      var kinds := used;
      ghost var start := w;
      for i := 0 to |addrs|
        invariant PersistAddrs(w, dc, card, addrs[i..], kinds) == PersistAddrs(start, dc, card, addrs, used)
      {
        assert addrs[i..][1..] == addrs[i + 1..];
        var prefix := GetNetPrefixByIp(addrs[i], dc, Some(RECORDED));
        if prefix.Err? {
          return Err(prefix.exn);
        }
        if prefix.value.None? {
          w := Recorded(w, "network_prefix");
          continue;
        }
        var p := prefix.value.value;
        var kind := ResolveIpType(p.kind, kinds);
        var answer := CmdbCall(
          InsertIp(card, addrs[i], Some(kind), Some(p.id)), Once(SelectIp(addrs[i], card, Some(p.id))), RECORDS_IP);
        if answer.Threw? {
          return Err(answer.exn);
        }
        kinds := kinds + {Some(kind)};
      }
      return Ok(kinds);
    }

    /** One endpoint per card and one ip per address. */
    method PersistNetEndpoints(ctx: Context, server: Id, cards: seq<Card>) returns (r: Result<()>)
      modifies this
      ensures AsStage(w, r) == Persist(old(w), ctx, server, cards)
    {
      hide Call, PersistAddrs, NextBond, BondTaken, OrderOf, Bond;
      var used: set<Option<string>> := {};
      var taken := BondTaken(cards);
      ghost var start, names := w, taken;
      for i := 0 to |cards|
        invariant PersistCards(w, ctx.dcName, server, cards[i..], taken, used) == PersistCards(start, ctx.dcName, server, cards, names, {})
      {
        assert cards[i..][1..] == cards[i + 1..];
        var card := cards[i];
        var name, sel;
        if card.placeholder {
          name := NextBondName(taken);
          sel := Once(SelectEndpointByMac(server, card.mac));
        } else {
          name := Bond(OrderOf(card) - 1);
          sel := Once(SelectEndpointByName(server, name));
        }
        assert name == CardName(card, taken) && sel == CardSelector(server, card, name);
        if card.placeholder {
          taken := taken + [name];
        }
        var answer := CmdbCall(InsertEndpoint(server, name, card.mac, card.name), sel, RECORDS_ENDPOINT);
        if answer.Threw? {
          return Err(answer.exn);
        }
        if !answer.reply.EndpointRef? {
          continue;
        }
        var addrs := PersistAddresses(ctx.dcName, answer.reply.endpoint, card.addresses, used);
        if addrs.Err? {
          return Err(addrs.exn);
        }
        used := addrs.value;
      }
      return Ok(());
    }

    // -- create ------------------------------------------------------------------------------------

    /** The cap tenant a tag names; a miss is recorded. */
    method LookUpCapTenant(tags: seq<Tag>) returns (r: Result<Option<CapTenant>>)
      modifies this
      ensures AsStage(w, r) == FindCapTenant(old(w), tags)
    {
      hide Call;
      var tag := First(tags, HasKey(CAP_TENANT_TAG));
      if tag.None? {
        return Ok(None);
      }
      var answer := CmdbCall(SelectCapTenant(tag.value.value), NoSelector, RAISES_CAP_TENANT);
      if answer.Threw? {
        return Err(answer.exn);
      }
      if answer.reply.TenantRow? {
        return Ok(Some(answer.reply.tenant));
      }
      w := Recorded(w, "cap_tenant");
      return Ok(None);
    }

    /** Parse one create message; none means it has no instance. */
    method BuildCreateContext(m: CreateMsg) returns (r: Result<Option<Context>>)
      modifies this
      ensures AsStage(w, r) == BuildContext(old(w), m)
    {
      hide Call, FindCapTenant, KeptTags, CmdbTags, WithoutState, IsK8sNode;
      if m.instance.None? {
        return Ok(None);
      }
      var i := m.instance.value;
      if i.name.None? || i.id.None? {
        return Err(ContractError);
      }
      var answer := CmdbCall(SelectCloud(m.project), NoSelector, RAISES_CLOUD);
      if answer.Threw? {
        return Err(answer.exn);
      }
      var cloud := if answer.reply.CloudRow? then Some(answer.reply.cloud) else None;
      var tenant := LookUpCapTenant(WithoutState(CmdbTags(i.metadata)));
      if tenant.Err? {
        return Err(tenant.exn);
      }
      return Ok(Some(Read(m, i, i.name.value, i.id.value, cloud, tenant.value)));
    }

    /** Recreate the server row, write its fields, cards and addresses, and then its final state. */
    method CreateInstances(m: CreateMsg) returns (r: Result<()>)
      modifies this
      ensures AsOutcome(w, r) == CreateServer(old(w), m)
    {
      hide Call, BuildContext, Recreate, WriteFields, PersistCards, HostNetworks, Failed, StatusDetails;
      w := w.(errors := []);
      var built := BuildCreateContext(m);
      if built.Err? {
        return Err(built.exn);
      }
      if built.value.None? {
        return Ok(());
      }
      var ctx := built.value.value;
      var cards: seq<Card> := [];
      if m.instance.Some? {
        cards := BuildHostNetworks(m.instance.value.networks, m.ports);
      }
      var row := RecreateServerRow(ctx);
      if row.Err? {
        if row.exn == CmdbAbort {
          return Ok(());
        }
        return Err(row.exn);
      }
      var fields := WriteCreateFields(ctx);
      if fields.Err? {
        return Err(fields.exn);
      }
      var net := PersistNetEndpoints(ctx, row.value, cards);
      if net.Err? {
        return Err(net.exn);
      }
      var data: Cols := map["state" := Text(ctx.readyState)];
      if Failed(w.errors) {
        data := map["state" := Text(ERROR_STATE), "status_details" := Text(StatusDetails(w.errors))];
      }
      var answer := UpdateServer(data, Some(ctx.hostname), Some(ctx.uuid), RECORDS_STATE);
      if answer.Threw? {
        return Err(answer.exn);
      }
      return Ok(());
    }

    // -- delete and resize -------------------------------------------------------------------------------

    method DeleteInstances(m: DeleteMsg) returns (r: Result<()>)
      modifies this
      ensures AsOutcome(w, r) == Delete(old(w), m)
    {
      hide RemoveServer;
      if m.instance.None? {
        return Ok(());
      }
      r := DeleteServerRows(m.instance.value, "");
    }

    method ResizeInstances(m: ResizeMsg) returns (r: Result<()>)
      modifies this
      ensures AsOutcome(w, r) == Resize(old(w), m)
    {
      hide Call;
      if m.instance.None? {
        return Ok(());
      }
      if m.price.Some? {
        var answer := UpdateServer(
          map["server_monthly_payment" := m.price.value], None, m.instance, Opts("server_monthly_payment", true, None));
        if answer.Threw? {
          return Err(answer.exn);
        }
      }
      if m.flavor.Some? {
        var answer := UpdateServer(
          map["flavor" := Lookup(map["name" := m.flavor.value, "region_code" := m.region])], None, m.instance,
          Opts("flavor", true, None));
        if answer.Threw? {
          return Err(answer.exn);
        }
      }
      return Ok(());
    }

    // -- attach and detach -----------------------------------------------------------------------------------

    /** The prefix of an attached address; a missing datacenter or prefix degrades to none. */
    method FindAttachPrefix(addr: string, region: string) returns (r: Result<Option<Prefix>>)
      modifies this
      ensures AsStage(w, r) == AttachPrefix(old(w), addr, region)
    {
      hide Call, NetPrefix;
      var answer := CmdbCall(SelectDatacenter(region), NoSelector, LOOKUP_DC);
      if answer.Threw? {
        return Err(answer.exn);
      }
      if !answer.reply.DatacenterRow? {
        return Ok(None);
      }
      r := GetNetPrefixByIp(addr, answer.reply.dc, None);
    }

    /** Reuse the card with this mac, else an orphan, else insert a card under the lowest free name. */
    method AttachEndpointCard(m: AttachMsg, uuid: string, port: AttachPort, server: Id, endpoints: seq<EndpointView>)
      returns (r: Result<Target>)
      modifies this
      ensures AsStage(w, r) == AttachCard(old(w), m, uuid, port, server, endpoints)
    {
      hide Call, NextBond;
      var mac := port.mac;
      var known := First(endpoints, ByMac(mac));
      if known.None? {
        known := First(endpoints, Orphan());
      }
      if known.Some? {
        var v := known.value;
        var newMac: Option<string>, newNotes: Option<string> := None, None;
        if Truthy(mac) && !Truthy(v.row.mac) {
          newMac := mac;
        }
        if Truthy(m.network) && !Truthy(v.row.notes) {
          newNotes := m.network;
        }
        if newMac.Some? || newNotes.Some? {
          var answer := CmdbCall(UpdateEndpoint(v.row.id, newMac, newNotes), NoSelector, RAISES_ENDPOINT_UPDATE);
          if answer.Threw? {
            return Err(answer.exn);
          }
        }
        return Ok(Target(v.row.id));
      }
      var name := NextBondName(Map(endpoints, NameOf()));
      var answer := CmdbCall(
        InsertEndpoint(server, name, Given(mac), Given(m.network)), AttachEndpoint(port.addr, uuid, server, name), RAISES_ENDPOINT);
      if answer.Threw? {
        return Err(answer.exn);
      }
      if !answer.reply.EndpointRef? {
        return Err(Perm(OtherError));
      }
      return Ok(if answer.reply.viaIp then AlreadyThere else Target(answer.reply.endpoint));
    }

    /** Add one address to a server; a repeated delivery is recognised first. */
    method AttachToInstances(m: AttachMsg) returns (r: Result<()>)
      modifies this
      ensures AsOutcome(w, r) == Attach(old(w), m)
    {
      hide Call, AttachPrefix, AttachCard, NewIp, UsedKinds;
      if m.instance.None? || m.port.None? {
        return Ok(());
      }
      var uuid, port := m.instance.value, m.port.value;
      var answer := CmdbCall(SelectServerByUuid(uuid), NoSelector, RAISES_SERVER);
      if answer.Threw? {
        return Err(answer.exn);
      }
      if !answer.reply.ServerRow? {
        return Ok(());
      }
      var server, endpoints := answer.reply.server, answer.reply.endpoints;
      answer := CmdbCall(SelectAttachedIp(port.addr, uuid), NoSelector, PROBE);
      if answer.Threw? {
        return Err(answer.exn);
      }
      if answer.reply != Nothing {
        return Ok(());
      }
      var prefix := FindAttachPrefix(port.addr, m.region);
      if prefix.Err? {
        return Err(prefix.exn);
      }
      var card := AttachEndpointCard(m, uuid, port, server, endpoints);
      if card.Err? {
        return Err(card.exn);
      }
      if card.value.AlreadyThere? {
        return Ok(());
      }
      answer := CmdbCall(
        NewIp(card.value.endpoint, port.addr, prefix.value, UsedKinds(endpoints)), AttachedIp(port.addr, uuid), RAISES_IP);
      if answer.Threw? {
        return Err(answer.exn);
      }
      return Ok(());
    }

    /** Delete the address, then every endpoint of the server that holds none. */
    method DetachFromInstances(m: DetachMsg) returns (r: Result<()>)
      modifies this
      ensures AsOutcome(w, r) == Detach(old(w), m)
    {
      hide Call;
      if m.addr.None? || m.instance.None? {
        return Ok(());
      }
      var answer := CmdbCall(DeleteAttachedIps(m.addr.value, m.instance.value), NoSelector, RAISES_IP_DELETE);
      if answer.Threw? {
        return Err(answer.exn);
      }
      answer := CmdbCall(SweepEndpoints(m.instance.value), NoSelector, RAISES_ENDPOINT_DELETE);
      if answer.Threw? {
        return Err(answer.exn);
      }
      return Ok(());
    }

    /** Route one message to its handler. */
    method ProcessMessage(m: Message) returns (r: Result<()>)
      modifies this
      ensures AsOutcome(w, r) == Process(old(w), m)
    {
      hide CreateServer, Delete, Resize, Attach, Detach;
      match m
      case CreateInstance(c) => r := CreateInstances(c);
      case DeleteInstance(d) => r := DeleteInstances(d);
      case ResizeInstance(x) => r := ResizeInstances(x);
      case AttachAddress(a) => r := AttachToInstances(a);
      case DetachAddress(d) => r := DetachFromInstances(d);
      case Unhandled => r := Ok(());
      case Undecodable => r := Err(ContractError);
    }
  }
}
