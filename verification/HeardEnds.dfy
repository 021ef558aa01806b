/** How a message ends when every request is heard: which refusals stop it, and which it goes on after. */
module HeardEnds {
  import opened Basics
  import opened Cmdb
  import opened Retry
  import opened RetryProofs
  import opened StoreFacts
  import opened CallLaws
  import opened Planning
  import opened Attachments
  import opened AttachProofs
  import opened Tags
  import opened Create
  import opened RecreateProofs
  import opened Runs
  import opened RowLaws
  import opened HeardRuns

  /** The requests whose refusal ends a message of this kind; after any other it goes on. */
  predicate Essential(m: Message, op: Op) {
    match m
    case CreateInstance(_) => op.SelectCloud? || op.SelectCapTenant?
    case DeleteInstance(_) => op.SelectServers? || op.DeleteRail? || op.DeleteServer?
    case ResizeInstance(_) => op.UpdateServers?
    case AttachAddress(_) => op.SelectServerByUuid? || op.UpdateEndpoint? || op.InsertEndpoint? || op.InsertIp?
    case DetachAddress(_) => op.DeleteAttachedIps? || op.SweepEndpoints?
    case Unhandled => false
    case Undecodable => false
  }

  predicate Refusal(e: Event) { e.Sent? && e.answer.Threw? && e.answer.exn.Perm? }

  /** A request that matters to the message was refused. */
  ghost predicate Stopped(w: World, w': World, m: Message) {
    w.log <= w'.log && exists i :: |w.log| <= i < |w'.log| && Refusal(w'.log[i]) && Essential(m, w'.log[i].op)
  }

  lemma StoppedPart(w: World, w1: World, w': World, m: Message)
    requires w.log <= w1.log <= w'.log
    ensures Stopped(w, w', m) <==> Stopped(w, w1, m) || Stopped(w1, w', m)
  {
    assert forall i :: 0 <= i < |w1.log| ==> w1.log[i] == w'.log[i];
  }

  lemma NotStopped(w: World, m: Message)
    ensures !Stopped(w, w, m)
  {
  }

  /** A heard call: refused, and then raised or passed over, or answered. */
  lemma CallEnds(w: World, op: Op, sel: Selector, o: Opts, m: Message)
    requires AllHeard(w, Call(w, op, sel, o).w)
    ensures
      var t := Call(w, op, sel, o);
      && t.w.crowd == w.crowd && w.log <= t.w.log
      && (t.answer.Got? || (o.raises && t.answer == Threw(CmdbAbort)))
      && (Essential(m, op) && o.raises ==> (Stopped(w, t.w, m) <==> t.answer.Threw?))
      && (!Essential(m, op) ==> !Stopped(w, t.w, m))
      && (t.answer.Got? && o.raises ==> t.answer.reply == Reads(Met(w), op, FreshId(w)))
  {
    hide Reads, Commit, Met, Accepts;
    var sent, t := Exchange(w, op), Call(w, op, sel, o);
    assert t == Issue(w, op, sel, o, 1);
    assert sent.w.log[|w.log|] == Sent(op, Fate(w), sent.answer) && |t.w.log| == |sent.w.log| && sent.w.log <= t.w.log;
    assert t.w.log[|w.log|] == Sent(op, Fate(w), sent.answer);
  }

  // -- attach ----------------------------------------------------------------------------------

  lemma PrefixEnds(w: World, m: AttachMsg, addr: string, region: string)
    requires AllHeard(w, AttachPrefix(w, addr, region).w)
    ensures
      var s := AttachPrefix(w, addr, region);
      s.Fine? && !Stopped(w, s.w, AttachAddress(m))
  {
    hide Call, AllHeard, Stopped, First;
    var s, t := AttachPrefix(w, addr, region), Call(w, SelectDatacenter(region), NoSelector, LOOKUP_DC);
    assert t.w.log <= s.w.log;
    HeardPart(w, t.w, s.w);
    CallEnds(w, SelectDatacenter(region), NoSelector, LOOKUP_DC, AttachAddress(m));
    StoppedPart(w, t.w, s.w, AttachAddress(m));
    if t.answer.reply.DatacenterRow? {
      CallEnds(t.w, SelectPrefixes(t.answer.reply.dc), NoSelector, Opts("network_prefix", false, None), AttachAddress(m));
    } else {
      NotStopped(t.w, AttachAddress(m));
    }
  }

  lemma CardEnds(w: World, m: AttachMsg, uuid: string, port: AttachPort, server: Id, endpoints: seq<EndpointView>)
    requires AllHeard(w, AttachCard(w, m, uuid, port, server, endpoints).w)
    ensures
      var s := AttachCard(w, m, uuid, port, server, endpoints);
      && (s.Fine? <==> !Stopped(w, s.w, AttachAddress(m))) && (s.Broken? ==> s.exn == CmdbAbort)
  {
    hide Call, AllHeard, Stopped, Choose;
    NotStopped(w, AttachAddress(m));
    match Choose(endpoints, port.mac)
    case Some(v) =>
      var newMac, newNotes := FillMac(v, port.mac), FillNotes(v, m.network);
      if !(newMac.None? && newNotes.None?) {
        CallEnds(w, UpdateEndpoint(v.row.id, newMac, newNotes), NoSelector, RAISES_ENDPOINT_UPDATE, AttachAddress(m));
      }
    case None =>
      var op := NewEndpoint(server, m, port.mac, endpoints);
      CallEnds(w, op, AttachEndpoint(port.addr, uuid, server, op.name), RAISES_ENDPOINT, AttachAddress(m));
  }

  lemma AttachOnEnds(w: World, m: AttachMsg, uuid: string, port: AttachPort, server: Id, endpoints: seq<EndpointView>)
    requires AllHeard(w, AttachOn(w, m, uuid, port, server, endpoints).w)
    ensures
      var o := AttachOn(w, m, uuid, port, server, endpoints);
      && (o.status.Returned? <==> !Stopped(w, o.w, AttachAddress(m))) && (o.status.Raised? ==> o.status.exn == CmdbAbort)
  {
    hide Call, AllHeard, Stopped, AttachPrefix, AttachCard, UsedKinds;
    var o, prefix := AttachOn(w, m, uuid, port, server, endpoints), AttachPrefix(w, port.addr, m.region);
    assert prefix.w.log <= o.w.log;
    HeardPart(w, prefix.w, o.w);
    PrefixEnds(w, m, port.addr, m.region);
    StoppedPart(w, prefix.w, o.w, AttachAddress(m));
    var card := AttachCard(prefix.w, m, uuid, port, server, endpoints);
    assert card.w.log <= o.w.log;
    HeardPart(prefix.w, card.w, o.w);
    CardEnds(prefix.w, m, uuid, port, server, endpoints);
    StoppedPart(prefix.w, card.w, o.w, AttachAddress(m));
    NotStopped(card.w, AttachAddress(m));
    if card.Fine? && card.value.Target? {
      var op := NewIp(card.value.endpoint, port.addr, prefix.value, UsedKinds(endpoints));
      CallEnds(card.w, op, AttachedIp(port.addr, uuid), RAISES_IP, AttachAddress(m));
    }
  }

  lemma AttachEnds(w: World, m: AttachMsg)
    requires AllHeard(w, Attach(w, m).w)
    ensures
      var o := Attach(w, m);
      && (o.status.Returned? <==> !Stopped(w, o.w, AttachAddress(m))) && (o.status.Raised? ==> o.status.exn == CmdbAbort)
  {
    hide Call, AllHeard, Stopped, AttachOn;
    NotStopped(w, AttachAddress(m));
    if m.instance.Some? && m.port.Some? {
      var uuid, port, o := m.instance.value, m.port.value, Attach(w, m);
      var found := Call(w, SelectServerByUuid(uuid), NoSelector, RAISES_SERVER);
      assert found.w.log <= o.w.log;
      HeardPart(w, found.w, o.w);
      CallEnds(w, SelectServerByUuid(uuid), NoSelector, RAISES_SERVER, AttachAddress(m));
      StoppedPart(w, found.w, o.w, AttachAddress(m));
      NotStopped(found.w, AttachAddress(m));
      if found.answer.Got? && found.answer.reply.ServerRow? {
        AttachToEnds(found.w, m, uuid, port, found.answer.reply.server, found.answer.reply.endpoints);
      }
    }
  }

  lemma AttachToEnds(w: World, m: AttachMsg, uuid: string, port: AttachPort, server: Id, endpoints: seq<EndpointView>)
    requires AllHeard(w, AttachTo(w, m, uuid, port, server, endpoints).w)
    ensures
      var o := AttachTo(w, m, uuid, port, server, endpoints);
      && (o.status.Returned? <==> !Stopped(w, o.w, AttachAddress(m))) && (o.status.Raised? ==> o.status.exn == CmdbAbort)
  {
    hide Call, AllHeard, Stopped, AttachOn;
    var o, probe := AttachTo(w, m, uuid, port, server, endpoints), Call(w, SelectAttachedIp(port.addr, uuid), NoSelector, PROBE);
    assert probe.w.log <= o.w.log;
    HeardPart(w, probe.w, o.w);
    CallEnds(w, SelectAttachedIp(port.addr, uuid), NoSelector, PROBE, AttachAddress(m));
    StoppedPart(w, probe.w, o.w, AttachAddress(m));
    NotStopped(probe.w, AttachAddress(m));
    if probe.answer == Got(Nothing) { AttachOnEnds(probe.w, m, uuid, port, server, endpoints); }
  }

  // -- detach, resize, delete ------------------------------------------------------------------

  lemma DetachEnds(w: World, m: DetachMsg)
    requires AllHeard(w, Detach(w, m).w)
    ensures
      var o := Detach(w, m);
      && (o.status.Returned? <==> !Stopped(w, o.w, DetachAddress(m))) && (o.status.Raised? ==> o.status.exn == CmdbAbort)
  {
    hide Call, AllHeard, Stopped;
    NotStopped(w, DetachAddress(m));
    if m.addr.Some? && m.instance.Some? {
      var o, op := Detach(w, m), DeleteAttachedIps(m.addr.value, m.instance.value);
      var gone := Call(w, op, NoSelector, RAISES_IP_DELETE);
      assert gone.w.log <= o.w.log;
      HeardPart(w, gone.w, o.w);
      CallEnds(w, op, NoSelector, RAISES_IP_DELETE, DetachAddress(m));
      StoppedPart(w, gone.w, o.w, DetachAddress(m));
      NotStopped(gone.w, DetachAddress(m));
      if gone.answer.Got? { CallEnds(gone.w, SweepEndpoints(m.instance.value), NoSelector, RAISES_ENDPOINT_DELETE, DetachAddress(m)); }
    }
  }

  lemma ColumnEnds(w: World, uuid: string, asked: Cols, field: string, m: ResizeMsg)
    requires AllHeard(w, SetColumn(w, uuid, asked, field).w)
    ensures
      var o := SetColumn(w, uuid, asked, field);
      && (o.status.Returned? <==> !Stopped(w, o.w, ResizeInstance(m))) && (o.status.Raised? ==> o.status.exn == CmdbAbort)
  {
    hide Call, AllHeard, Stopped;
    CallEnds(w, UpdateServers(None, Some(uuid), asked), NoSelector, Opts(field, true, None), ResizeInstance(m));
  }

  lemma ResizeEnds(w: World, m: ResizeMsg)
    requires AllHeard(w, Resize(w, m).w)
    ensures
      var o := Resize(w, m);
      && (o.status.Returned? <==> !Stopped(w, o.w, ResizeInstance(m))) && (o.status.Raised? ==> o.status.exn == CmdbAbort)
  {
    hide SetColumn, AllHeard, Stopped;
    NotStopped(w, ResizeInstance(m));
    if m.instance.Some? {
      var uuid, o := m.instance.value, Resize(w, m);
      var paid := if m.price.None? then Outcome(w, Returned)
                  else SetColumn(w, uuid, map["server_monthly_payment" := m.price.value], "server_monthly_payment");
      assert w.log <= paid.w.log <= o.w.log;
      HeardPart(w, paid.w, o.w);
      StoppedPart(w, paid.w, o.w, ResizeInstance(m));
      NotStopped(paid.w, ResizeInstance(m));
      if m.price.Some? { ColumnEnds(w, uuid, map["server_monthly_payment" := m.price.value], "server_monthly_payment", m); }
      if paid.status.Returned? && m.flavor.Some? {
        ColumnEnds(paid.w, uuid, map["flavor" := Lookup(map["name" := m.flavor.value, "region_code" := m.region])], "flavor", m);
      }
    }
  }

  /** A removal ends at its first refusal: for a delete that matters, for a create it does not. */
  ghost predicate RemovalEnd<T>(w: World, s: Stage<T>, m: Message) {
    && (s.Broken? ==> s.exn == CmdbAbort)
    && (m.DeleteInstance? ==> (s.Fine? <==> !Stopped(w, s.w, m))) && (m.CreateInstance? ==> !Stopped(w, s.w, m))
  }

  lemma {:induction false} RailsEnd(w: World, rails: seq<Id>, m: Message)
    requires AllHeard(w, RemoveRails(w, rails).w)
    ensures RemovalEnd(w, RemoveRails(w, rails), m)
    decreases |rails|
  {
    hide Call, AllHeard, Stopped;
    NotStopped(w, m);
    if rails != [] {
      var s, t := RemoveRails(w, rails), Call(w, DeleteRail(rails[0]), NoSelector, RAISES_RAILS);
      assert t.w.log <= s.w.log;
      HeardPart(w, t.w, s.w);
      CallEnds(w, DeleteRail(rails[0]), NoSelector, RAISES_RAILS, m);
      StoppedPart(w, t.w, s.w, m);
      NotStopped(t.w, m);
      if t.answer.Got? { RailsEnd(t.w, rails[1..], m); }
    }
  }

  lemma OneEnds(w: World, doomed: Doomed, m: Message)
    requires AllHeard(w, RemoveOne(w, doomed).w)
    ensures RemovalEnd(w, RemoveOne(w, doomed), m)
  {
    hide Call, AllHeard, Stopped, RemoveRails;
    var s, rails := RemoveOne(w, doomed), RemoveRails(w, doomed.rails);
    assert rails.w.log <= s.w.log;
    HeardPart(w, rails.w, s.w);
    RailsEnd(w, doomed.rails, m);
    StoppedPart(w, rails.w, s.w, m);
    NotStopped(rails.w, m);
    if rails.Fine? { CallEnds(rails.w, DeleteServer(doomed.server), NoSelector, RAISES_SERVER_DELETE, m); }
  }

  lemma {:induction false} AllEnd(w: World, found: seq<Doomed>, m: Message)
    requires AllHeard(w, RemoveAll(w, found).w)
    ensures RemovalEnd(w, RemoveAll(w, found), m)
    decreases |found|
  {
    hide AllHeard, Stopped, RemoveOne;
    NotStopped(w, m);
    if found != [] {
      var s, one := RemoveAll(w, found), RemoveOne(w, found[0]);
      assert one.w.log <= s.w.log;
      HeardPart(w, one.w, s.w);
      OneEnds(w, found[0], m);
      StoppedPart(w, one.w, s.w, m);
      NotStopped(one.w, m);
      if one.Fine? { AllEnd(one.w, found[1..], m); }
    }
  }

  lemma RemovalEnds(w: World, uuid: string, hostname: string, m: Message)
    requires AllHeard(w, RemoveServer(w, uuid, hostname).w)
    ensures RemovalEnd(w, RemoveServer(w, uuid, hostname), m)
  {
    hide Call, AllHeard, Stopped, RemoveAll;
    var s, op := RemoveServer(w, uuid, hostname), SelectServers(NonEmpty(hostname), NonEmpty(uuid));
    var t := Call(w, op, NoSelector, RAISES_SELECT);
    assert t.w.log <= s.w.log;
    HeardPart(w, t.w, s.w);
    CallEnds(w, op, NoSelector, RAISES_SELECT, m);
    StoppedPart(w, t.w, s.w, m);
    NotStopped(t.w, m);
    if t.answer.Got? && t.answer.reply.ServerList? { AllEnd(t.w, t.answer.reply.found, m); }
  }

  lemma DeleteEnds(w: World, m: DeleteMsg)
    requires AllHeard(w, Delete(w, m).w)
    ensures
      var o := Delete(w, m);
      && (o.status.Returned? <==> !Stopped(w, o.w, DeleteInstance(m))) && (o.status.Raised? ==> o.status.exn == CmdbAbort)
  {
    hide RemoveServer, AllHeard, Stopped;
    NotStopped(w, DeleteInstance(m));
    if m.instance.Some? { RemovalEnds(w, m.instance.value, "", DeleteInstance(m)); }
  }

  // -- create ------------------------------------------------------------------------------------

  lemma TenantEnds(w: World, tags: seq<Tag>, m: CreateMsg)
    requires AllHeard(w, FindCapTenant(w, tags).w)
    ensures
      var s := FindCapTenant(w, tags);
      (s.Fine? <==> !Stopped(w, s.w, CreateInstance(m))) && (s.Broken? ==> s.exn == CmdbAbort) && s.w.crowd == w.crowd
  {
    hide Call, First;
    NotStopped(w, CreateInstance(m));
    match First(tags, HasKey(CAP_TENANT_TAG))
    case None =>
    case Some(tag) => CallEnds(w, SelectCapTenant(tag.value), NoSelector, RAISES_CAP_TENANT, CreateInstance(m));
  }

  lemma ContextEnds(w: World, m: CreateMsg)
    requires AllHeard(w, BuildContext(w, m).w) && !Unreadable(CreateInstance(m))
    ensures
      var s := BuildContext(w, m);
      (s.Fine? <==> !Stopped(w, s.w, CreateInstance(m))) && (s.Broken? ==> s.exn == CmdbAbort) && s.w.crowd == w.crowd
  {
    hide Call, AllHeard, Stopped, FindCapTenant, Read, WithoutState, CmdbTags;
    NotStopped(w, CreateInstance(m));
    if m.instance.Some? {
      var s, t := BuildContext(w, m), Call(w, SelectCloud(m.project), NoSelector, RAISES_CLOUD);
      assert t.w.log <= s.w.log;
      HeardPart(w, t.w, s.w);
      CallEnds(w, SelectCloud(m.project), NoSelector, RAISES_CLOUD, CreateInstance(m));
      StoppedPart(w, t.w, s.w, CreateInstance(m));
      NotStopped(t.w, CreateInstance(m));
      if t.answer.Got? { TenantEnds(t.w, WithoutState(CmdbTags(m.instance.value.metadata)), m); }
    }
  }

  lemma RecreateEnds(w: World, ctx: Context, m: CreateMsg)
    requires AllHeard(w, Recreate(w, ctx).w)
    ensures
      var s := Recreate(w, ctx);
      !Stopped(w, s.w, CreateInstance(m)) && (s.Broken? ==> s.exn == CmdbAbort) && s.w.crowd == w.crowd
  {
    hide Call, AllHeard, Stopped, RemoveServer, NewServer;
    var s, removed := Recreate(w, ctx), RemoveServer(w, ctx.uuid, ctx.hostname);
    assert removed.w.log <= s.w.log;
    HeardPart(w, removed.w, s.w);
    RemovalEnds(w, ctx.uuid, ctx.hostname, CreateInstance(m));
    StoppedPart(w, removed.w, s.w, CreateInstance(m));
    if removed.Fine? {
      CallEnds(removed.w, InsertServer(NewServer(ctx)), Once(SelectServerByHostname(ctx.hostname)), RAISES_SERVER_INSERT, CreateInstance(m));
    }
  }

  /** Filling in a row asks for nothing the message depends on. */
  lemma {:induction false} AddrsClear(w: World, dc: string, card: Id, addrs: seq<string>, used: set<Option<string>>, m: CreateMsg)
    requires AllHeard(w, PersistAddrs(w, dc, card, addrs, used).w)
    ensures !Stopped(w, PersistAddrs(w, dc, card, addrs, used).w, CreateInstance(m))
    decreases |addrs|
  {
    hide Call, AllHeard, Stopped, First;
    NotStopped(w, CreateInstance(m));
    if addrs != [] {
      var s, o := PersistAddrs(w, dc, card, addrs, used), Opts("network_prefix", false, Some(RECORDED));
      var prefix := NetPrefix(w, addrs[0], dc, Some(RECORDED));
      assert prefix.w.log <= s.w.log && prefix.w == Call(w, SelectPrefixes(dc), NoSelector, o).w;
      HeardPart(w, prefix.w, s.w);
      CallEnds(w, SelectPrefixes(dc), NoSelector, o, CreateInstance(m));
      StoppedPart(w, prefix.w, s.w, CreateInstance(m));
      hide NetPrefix;
      if prefix.value.None? {
        RecordedHeard(prefix.w, s.w, CreateInstance(m));
        AddrsClear(Recorded(prefix.w, "network_prefix"), dc, card, addrs[1..], used, m);
      } else {
        var p := prefix.value.value;
        var kind := ResolveIpType(p.kind, used);
        var op, sel := InsertIp(card, addrs[0], Some(kind), Some(p.id)), Once(SelectIp(addrs[0], card, Some(p.id)));
        var t := Call(prefix.w, op, sel, RECORDS_IP);
        HeardPart(prefix.w, t.w, s.w);
        CallEnds(prefix.w, op, sel, RECORDS_IP, CreateInstance(m));
        StoppedPart(prefix.w, t.w, s.w, CreateInstance(m));
        AddrsClear(t.w, dc, card, addrs[1..], used + {Some(kind)}, m);
      }
    }
  }

  lemma RecordedHeard(w: World, w': World, m: Message)
    requires AllHeard(w, w')
    ensures AllHeard(Recorded(w, "network_prefix"), w') && (Stopped(Recorded(w, "network_prefix"), w', m) <==> Stopped(w, w', m))
  {
  }

  lemma {:induction false} CardsClear(w: World, dc: string, server: Id, cards: seq<Card>, taken: seq<string>, used: set<Option<string>>, m: CreateMsg)
    requires AllHeard(w, PersistCards(w, dc, server, cards, taken, used).w)
    ensures !Stopped(w, PersistCards(w, dc, server, cards, taken, used).w, CreateInstance(m))
    decreases |cards|
  {
    hide Call, AllHeard, Stopped, PersistAddrs, CardName, CardSelector;
    NotStopped(w, CreateInstance(m));
    if cards != [] {
      var s := PersistCards(w, dc, server, cards, taken, used);
      var card, name := cards[0], CardName(cards[0], taken);
      var taken' := if card.placeholder then taken + [name] else taken;
      var op, sel := InsertEndpoint(server, name, card.mac, card.name), CardSelector(server, card, name);
      var t := Call(w, op, sel, RECORDS_ENDPOINT);
      assert t.w.log <= s.w.log;
      HeardPart(w, t.w, s.w);
      CallEnds(w, op, sel, RECORDS_ENDPOINT, CreateInstance(m));
      StoppedPart(w, t.w, s.w, CreateInstance(m));
      if t.answer.reply.EndpointRef? {
        var addrs := PersistAddrs(t.w, dc, t.answer.reply.endpoint, card.addresses, used);
        assert addrs.w.log <= s.w.log;
        HeardPart(t.w, addrs.w, s.w);
        AddrsClear(t.w, dc, t.answer.reply.endpoint, card.addresses, used, m);
        StoppedPart(t.w, addrs.w, s.w, CreateInstance(m));
        NotStopped(addrs.w, CreateInstance(m));
        if addrs.Fine? { CardsClear(addrs.w, dc, server, cards[1..], taken', addrs.value, m); }
      } else {
        CardsClear(t.w, dc, server, cards[1..], taken', used, m);
      }
    }
  }

  lemma UpdateClear(w: World, ctx: Context, mutation: Cols, o: Opts, m: CreateMsg)
    requires AllHeard(w, UpdateRow(w, ctx, mutation, o).w)
    ensures !Stopped(w, UpdateRow(w, ctx, mutation, o).w, CreateInstance(m))
  {
    hide Call, AllHeard, Stopped;
    CallEnds(w, UpdateServers(Some(ctx.hostname), Some(ctx.uuid), mutation), NoSelector, o, CreateInstance(m));
  }

  lemma {:induction false} ReplayClear(w: World, ctx: Context, writes: seq<FieldWrite>, m: CreateMsg)
    requires AllHeard(w, ReplayWrites(w, ctx, writes).w)
    ensures !Stopped(w, ReplayWrites(w, ctx, writes).w, CreateInstance(m))
    decreases |writes|
  {
    hide UpdateRow, AllHeard, Stopped;
    NotStopped(w, CreateInstance(m));
    if writes != [] {
      var s, t := ReplayWrites(w, ctx, writes), UpdateRow(w, ctx, writes[0].mutation, WriteOpts(writes[0]));
      assert t.w.log <= s.w.log;
      HeardPart(w, t.w, s.w);
      UpdateClear(w, ctx, writes[0].mutation, WriteOpts(writes[0]), m);
      StoppedPart(w, t.w, s.w, CreateInstance(m));
      NotStopped(t.w, CreateInstance(m));
      if t.answer.Got? { ReplayClear(t.w, ctx, writes[1..], m); }
    }
  }

  lemma FieldsClear(w: World, ctx: Context, m: CreateMsg)
    requires AllHeard(w, WriteFields(w, ctx).w)
    ensures !Stopped(w, WriteFields(w, ctx).w, CreateInstance(m))
  {
    hide UpdateRow, AllHeard, Stopped, CreateWrites, Merge, ReplayWrites;
    NotStopped(w, CreateInstance(m));
    var writes, o := CreateWrites(ctx, w.db.catalog.refs), Opts("batch", false, None);
    if Merge(writes) != map[] {
      var s, t := WriteFields(w, ctx), UpdateRow(w, ctx, Merge(writes), o);
      assert t.w.log <= s.w.log;
      HeardPart(w, t.w, s.w);
      UpdateClear(w, ctx, Merge(writes), o, m);
      StoppedPart(w, t.w, s.w, CreateInstance(m));
      NotStopped(t.w, CreateInstance(m));
      if t.answer == Got(Nothing) { ReplayClear(t.w, ctx, writes, m); }
    }
  }

  lemma FillEnds(w: World, ctx: Context, server: Id, cards: seq<Card>, m: CreateMsg)
    requires Quiet(w) && AllHeard(w, Fill(w, ctx, server, cards).w)
    ensures Fill(w, ctx, server, cards).status.Returned? && !Stopped(w, Fill(w, ctx, server, cards).w, CreateInstance(m))
  {
    hide UpdateRow, AllHeard, Stopped, WriteFields, PersistCards, FinalState, BondTaken;
    FillReturns(w, ctx, server, cards);
    var o, fields := Fill(w, ctx, server, cards), WriteFields(w, ctx);
    assert fields.w.log <= o.w.log;
    HeardPart(w, fields.w, o.w);
    FieldsClear(w, ctx, m);
    StoppedPart(w, fields.w, o.w, CreateInstance(m));
    var net := Persist(fields.w, ctx, server, cards);
    assert net.w.log <= o.w.log;
    HeardPart(fields.w, net.w, o.w);
    CardsClear(fields.w, ctx.dcName, server, cards, BondTaken(cards), {}, m);
    StoppedPart(fields.w, net.w, o.w, CreateInstance(m));
    UpdateClear(net.w, ctx, FinalState(ctx, net.w.errors), RECORDS_STATE, m);
  }

  lemma CreateEnds(w: World, m: CreateMsg)
    requires Quiet(w) && AllHeard(w, CreateServer(w, m).w) && !Unreadable(CreateInstance(m))
    ensures
      var o := CreateServer(w, m);
      && (o.status.Returned? <==> !Stopped(w, o.w, CreateInstance(m))) && (o.status.Raised? ==> o.status.exn == CmdbAbort)
  {
    hide AllHeard, Stopped, BuildContext, Recreate, Fill, Cards;
    var o, w0 := CreateServer(w, m), w.(errors := []);
    StartsOver(w, o.w, CreateInstance(m));
    var c := BuildContext(w0, m);
    assert c.w.log <= o.w.log;
    HeardPart(w0, c.w, o.w);
    ContextEnds(w0, m);
    StoppedPart(w0, c.w, o.w, CreateInstance(m));
    NotStopped(c.w, CreateInstance(m));
    if c.Fine? && c.value.Some? {
      var row := Recreate(c.w, c.value.value);
      assert row.w.log <= o.w.log;
      HeardPart(c.w, row.w, o.w);
      RecreateEnds(c.w, c.value.value, m);
      StoppedPart(c.w, row.w, o.w, CreateInstance(m));
      NotStopped(row.w, CreateInstance(m));
      if row.Fine? { FillEnds(row.w, c.value.value, row.value, Cards(m), m); }
    }
  }

  lemma StartsOver(w: World, w': World, m: Message)
    requires AllHeard(w, w')
    ensures AllHeard(w.(errors := []), w') && (Stopped(w.(errors := []), w', m) <==> Stopped(w, w', m))
  {
  }

  /**
   When every request is heard, a message that can be read returns exactly when no request
   that matters to it was refused; otherwise it ends in an abort, which is not tried again.
   A create goes on after every refusal but those of the look-ups it is read with; an attach
   after those of its probe, its datacenter and its prefix.
   */
  lemma HeardExactly(w: World, m: Message)
    requires Quiet(w) && AllHeard(w, Process(w, m).w) && !Unreadable(m)
    ensures
      var o := Process(w, m);
      && (o.status.Returned? <==> !Stopped(w, o.w, m)) && (o.status.Raised? ==> o.status.exn == CmdbAbort)
  {
    hide AllHeard, Stopped, CreateServer, Delete, Resize, Attach, Detach;
    match m
    case CreateInstance(c) => CreateEnds(w, c);
    case DeleteInstance(d) => DeleteEnds(w, d);
    case ResizeInstance(r) => ResizeEnds(w, r);
    case AttachAddress(a) => AttachEnds(w, a);
    case DetachAddress(d) => DetachEnds(w, d);
    case Unhandled => NotStopped(w, m);
    case Undecodable =>
  }
}
