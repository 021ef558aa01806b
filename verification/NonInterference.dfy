/** Whole messages among others: the same end, the same past, the same rows of their own. */
module NonInterference {
  import opened Basics
  import opened BondNames
  import opened Cmdb
  import opened Planning
  import opened Retry
  import opened RetryProofs
  import opened StoreFacts
  import opened Attachments
  import opened Tags
  import opened Create
  import CreateProofs
  import opened Runs
  import opened Locality
  import opened Guarantee
  import opened Weaving
  import opened Interference
  import opened ProtocolTwins

  // -- removing servers ---------------------------------------------------------------------------

  /** Everything own but this server, and its rails, stays. */
  ghost predicate Spares(w: World, w': World, server: Id) {
    && w'.scope == w.scope && w'.session == w.session
    && (forall id :: id in Own(w) && id != server ==> id in Own(w'))
    && (forall s, id :: s != server && RailOn(w, s, id) ==> RailOn(w', s, id))
  }

  lemma SparesTrans(a: World, b: World, c: World, server: Id)
    requires Spares(a, b, server) && Spares(b, c, server)
    ensures Spares(a, c, server)
  {
    hide Own, RailOn;
  }

  lemma RailIsOwn(w: World, server: Id, id: Id)
    requires Sound(w) && RailOn(w, server, id)
    ensures OwnRequest(w, DeleteRail(id))
    ensures forall s :: RailOn(w, s, id) ==> s == server
  {
    var r :| r in w.db.rails && r.id == id && r.serverId == server;
    forall t | t in w.db.rails && t.id == id ensures t == r { OneRail(w.db, t, r); }
    hide View, Mine, Keyed, Unborn;
  }

  lemma OwnCall(w: World, v: World, op: Op, o: Opts)
    requires Twin(w, v) && OwnRequest(v, op)
    ensures TwinTurn(Call(w, op, NoSelector, o), Call(v, op, NoSelector, o))
    ensures Keeps(v, Call(v, op, NoSelector, o).w, op)
  {
    hide Twin, OwnRequest, Keeps, Attempts, LocalSel, Refs, Extends;
    NoSel(v);
    TwinMeans(w, v);
    assert Tries(v) == Tries(w);
    AttemptsTwin(w, v, op, NoSelector, o, 1);
  }

  lemma RailSpared(w: World, w': World, server: Id, rail: Id)
    requires Keeps(w, w', DeleteRail(rail)) && forall s :: RailOn(w, s, rail) ==> s == server
    ensures Spares(w, w', server) && (server in Own(w) ==> server in Own(w'))
    ensures forall id :: id != rail && RailOn(w, server, id) ==> RailOn(w', server, id)
  {
    hide Own, OwnCards, RailOn;
  }

  lemma RailTwin(w: World, v: World, server: Id, rail: Id)
    requires Twin(w, v) && RailOn(v, server, rail)
    ensures
      var s, t := Call(w, DeleteRail(rail), NoSelector, RAISES_RAILS), Call(v, DeleteRail(rail), NoSelector, RAISES_RAILS);
      && TwinTurn(s, t) && Spares(v, t.w, server) && (server in Own(v) ==> server in Own(t.w))
      && (forall id :: id != rail && RailOn(v, server, id) ==> RailOn(t.w, server, id))
  {
    hide Twin, RailOn, Own, Sound, OwnRequest, Keeps, Spares, Call;
    TwinMeans(w, v);
    RailIsOwn(v, server, rail);
    OwnCall(w, v, DeleteRail(rail), RAISES_RAILS);
    RailSpared(v, Call(v, DeleteRail(rail), NoSelector, RAISES_RAILS).w, server, rail);
  }

  lemma {:induction false} RailsTwin(w: World, v: World, server: Id, rails: seq<Id>)
    requires Twin(w, v) && server in Own(v) && Distinct(rails) && forall r :: r in rails ==> RailOn(v, server, r)
    ensures
      var s, t := RemoveRails(w, rails), RemoveRails(v, rails);
      TwinStage(s, t) && Spares(v, t.w, server) && server in Own(t.w)
    decreases |rails|
  {
    hide Twin, RailOn, Own, Call;
    if rails != [] {
      RailTwin(w, v, server, rails[0]);
      var s, t := Call(w, DeleteRail(rails[0]), NoSelector, RAISES_RAILS), Call(v, DeleteRail(rails[0]), NoSelector, RAISES_RAILS);
      if s.answer.Got? {
        forall r | r in rails[1..] ensures RailOn(t.w, server, r) { LaterDiffers(rails, r); }
        RailsTwin(s.w, t.w, server, rails[1..]);
        SparesTrans(v, t.w, RemoveRails(v, rails).w, server);
      }
    }
  }

  lemma LaterDiffers(rails: seq<Id>, r: Id)
    requires rails != [] && Distinct(rails) && r in rails[1..]
    ensures r != rails[0] && r in rails
  {
    var i :| 0 <= i < |rails[1..]| && rails[1..][i] == r;
    assert rails[i + 1] == r;
  }

  /** No other message will be given a key that a row of the message alone bears. */
  lemma RowsAreElder(v: World, server: Id)
    requires Alone(v) && Company(v.crowd.start, Us(v.crowd)) && server in Own(v)
    ensures Elder(Us(v.crowd), v.crowd.me, server)
  {
    var c := v.crowd;
    var mine := Acts(c.me, v.trail);
    MineMeans(v.db, v.scope, v.session, server);
    hide Company, Woven, Mine, InScope, Agree;
    Meets(c.start, Us(c), mine);
    forall q | q in Us(c) && q != c.me ensures Born(server, q.session, q.minted) {
      ActsAre(c.me, v.trail, q);
      AgreeMeans(c.start, v.db, Us(c), q, q.minted);
      hide Keyed, Only;
    }
  }

  lemma OwnByKey(db: Db, scope: Scope, session: nat, server: Id)
    requires Keyed(db) && server in Mine(db, scope, session)
    ensures OwnServer(db, scope, session, server)
  {
    MineMeans(db, scope, session, server);
    hide Mine, InScope, Keyed;
    var t :| t in db.servers && t.id == server && InScope(t, scope, session);
    forall s | s in db.servers && s.id == server ensures s == t { OneServer(db, s, t); }
  }

  lemma ServerIsOwn(v: World, server: Id)
    requires Alone(v) && Company(v.crowd.start, Us(v.crowd)) && server in Own(v)
    ensures OwnRequest(v, DeleteServer(server))
  {
    hide Mine, Company, Alone, Elder, Keyed, OwnServer;
    RowsAreElder(v, server);
    AloneMeans(v);
    OwnByKey(v.db, v.scope, v.session, server);
  }

  lemma ServerSpared(w: World, w': World, server: Id)
    requires Keeps(w, w', DeleteServer(server))
    ensures Spares(w, w', server)
  {
    hide Own, OwnCards, RailOn;
  }

  lemma ServerTwin(w: World, v: World, server: Id)
    requires Twin(w, v) && server in Own(v)
    ensures
      var s, t := Call(w, DeleteServer(server), NoSelector, RAISES_SERVER_DELETE), Call(v, DeleteServer(server), NoSelector, RAISES_SERVER_DELETE);
      TwinTurn(s, t) && Spares(v, t.w, server)
  {
    hide RailOn, Own, Grounded, Alone, Company, Invited, OwnRequest, Keeps, Spares, Call;
    ServerIsOwn(v, server);
    OwnCall(w, v, DeleteServer(server), RAISES_SERVER_DELETE);
    ServerSpared(v, Call(v, DeleteServer(server), NoSelector, RAISES_SERVER_DELETE).w, server);
  }

  lemma OneTwin(w: World, v: World, x: Doomed)
    requires Twin(w, v) && OwnDoomed(v, x)
    ensures TwinStage(RemoveOne(w, x), RemoveOne(v, x)) && Spares(v, RemoveOne(v, x).w, x.server)
  {
    hide Twin, RailOn, Own, Call, RemoveRails;
    RailsTwin(w, v, x.server, x.rails);
    var s, t := RemoveRails(w, x.rails), RemoveRails(v, x.rails);
    if s.Fine? {
      ServerTwin(s.w, t.w, x.server);
      SparesTrans(v, t.w, RemoveOne(v, x).w, x.server);
    }
  }

  lemma FoundRest(w: World, w': World, found: seq<Doomed>)
    requires found != [] && OwnFound(w, found) && Spares(w, w', found[0].server)
    ensures OwnFound(w', found[1..])
  {
    hide RailOn, Own, Distinct;
    forall x | x in found[1..] ensures OwnDoomed(w', x) {
      var i :| 0 <= i < |found[1..]| && found[1..][i] == x;
      assert found[i + 1] == x && x in found;
    }
    assert forall i :: 0 <= i < |found[1..]| ==> found[1..][i] == found[i + 1];
  }

  lemma {:induction false} AllTwin(w: World, v: World, found: seq<Doomed>)
    requires Twin(w, v) && OwnFound(v, found)
    ensures TwinStage(RemoveAll(w, found), RemoveAll(v, found))
    decreases |found|
  {
    hide Twin, RemoveOne, OwnDoomed, Spares;
    if found != [] {
      OneTwin(w, v, found[0]);
      var s, t := RemoveOne(w, found[0]), RemoveOne(v, found[0]);
      if s.Fine? {
        FoundRest(v, t.w, found);
        hide OwnFound;
        AllTwin(s.w, t.w, found[1..]);
      }
    }
  }

  lemma RemoveTwin(w: World, v: World, uuid: string, hostname: string)
    requires Twin(w, v) && OnlyNames(v.scope, NonEmpty(hostname), NonEmpty(uuid))
    ensures TwinStage(RemoveServer(w, uuid, hostname), RemoveServer(v, uuid, hostname))
  {
    var op := SelectServers(NonEmpty(hostname), NonEmpty(uuid));
    hide Twin, Safe, Call, RemoveAll, OnlyNames, OwnFound;
    FindTwin(w, v, NonEmpty(hostname), NonEmpty(uuid));
    var s, t := Call(w, op, NoSelector, RAISES_SELECT), Call(v, op, NoSelector, RAISES_SELECT);
    CardAnswer(v, s, t);
    if s.answer.Got? && s.answer.reply.ServerList? { AllTwin(s.w, t.w, s.answer.reply.found); }
  }

  lemma FindTwin(w: World, v: World, h: Option<string>, u: Option<string>)
    requires Twin(w, v) && OnlyNames(v.scope, h, u)
    ensures SafeTurn(v, Call(w, SelectServers(h, u), NoSelector, RAISES_SELECT), Call(v, SelectServers(h, u), NoSelector, RAISES_SELECT))
  {
    hide Twin, SafeTurn, Call, OnlyNames;
    NoSelCall(w, v, SelectServers(h, u), RAISES_SELECT);
  }

  // -- create -----------------------------------------------------------------------------------------

  /** The message names only this hostname and uuid. */
  ghost predicate InNames(scope: Scope, hostname: string, uuid: string) { hostname in scope.hostnames && uuid in scope.uuids }

  lemma NewRowNamed(ctx: Context, scope: Scope)
    requires InNames(scope, ctx.hostname, ctx.uuid)
    ensures NamedIn(NewServer(ctx), scope)
  {
  }

  lemma RowTwin(w: World, v: World, ctx: Context)
    requires Twin(w, v) && InNames(v.scope, ctx.hostname, ctx.uuid)
    ensures
      var op, sel := InsertServer(NewServer(ctx)), Once(SelectServerByHostname(ctx.hostname));
      SafeTurn(v, Call(w, op, sel, RAISES_SERVER_INSERT), Call(v, op, sel, RAISES_SERVER_INSERT))
  {
    hide Twin, SafeTurn, Call;
    var op, sel := InsertServer(NewServer(ctx)), Once(SelectServerByHostname(ctx.hostname));
    NewRowNamed(ctx, v.scope);
    hide NewServer, NamedIn;
    CallTwin(w, v, op, sel, RAISES_SERVER_INSERT);
  }

  lemma RecreateTwin(w: World, v: World, ctx: Context)
    requires Twin(w, v) && InNames(v.scope, ctx.hostname, ctx.uuid)
    ensures TwinStage(Recreate(w, ctx), Recreate(v, ctx))
    ensures Recreate(v, ctx).Fine? ==> Recreate(v, ctx).value in Own(Recreate(v, ctx).w)
  {
    hide Twin, Safe, Call, RemoveServer, Own, Refs, NewServer;
    RemoveTwin(w, v, ctx.uuid, ctx.hostname);
    var s, t := RemoveServer(w, ctx.uuid, ctx.hostname), RemoveServer(v, ctx.uuid, ctx.hostname);
    if s.Fine? {
      assert t.w.scope == v.scope;
      RowTwin(s.w, t.w, ctx);
      var op, sel := InsertServer(NewServer(ctx)), Once(SelectServerByHostname(ctx.hostname));
      CardAnswer(t.w, Call(s.w, op, sel, RAISES_SERVER_INSERT), Call(t.w, op, sel, RAISES_SERVER_INSERT));
    }
  }

  lemma TenantTwin(w: World, v: World, tags: seq<Tag>)
    requires Twin(w, v)
    ensures TwinStage(FindCapTenant(w, tags), FindCapTenant(v, tags))
  {
    hide Twin, Safe, Call, Refs;
    match First(tags, HasKey(CAP_TENANT_TAG))
    case None =>
    case Some(tag) =>
      NoSelCall(w, v, SelectCapTenant(tag.value), RAISES_CAP_TENANT);
      var s, t := Call(w, SelectCapTenant(tag.value), NoSelector, RAISES_CAP_TENANT), Call(v, SelectCapTenant(tag.value), NoSelector, RAISES_CAP_TENANT);
      RecordedTwin(s.w, t.w, "cap_tenant");
  }

  lemma ContextTwin(w: World, v: World, m: CreateMsg)
    requires Twin(w, v)
    ensures TwinStage(BuildContext(w, m), BuildContext(v, m))
  {
    hide Twin, Safe, Call, Refs, FindCapTenant, CmdbTags, WithoutState, KeptTags, IsK8sNode, Read;
    NoSelCall(w, v, SelectCloud(m.project), RAISES_CLOUD);
    var s, t := Call(w, SelectCloud(m.project), NoSelector, RAISES_CLOUD), Call(v, SelectCloud(m.project), NoSelector, RAISES_CLOUD);
    if m.instance.Some? { TenantTwin(s.w, t.w, WithoutState(CmdbTags(m.instance.value.metadata))); }
  }

  lemma TwinRestart(w: World, v: World)
    requires Twin(w, v)
    ensures Twin(w.(errors := []), v.(errors := []))
  {
    hide Welcome, Woven, Footed, Keyed, Unborn, Acts, Heard;
  }

  /** The scope names the server, and every name its tags may give the row. */
  ghost predicate NamesRow(scope: Scope, catalog: Catalog, ctx: Context) {
    InNames(scope, ctx.hostname, ctx.uuid) && WritesStay(CreateWrites(ctx, catalog.refs), scope, catalog.refused)
  }

  /** The scope covers the names a create carries. */
  ghost predicate CoversCreate(scope: Scope, catalog: Catalog, m: CreateMsg) {
    m.instance.Some? && m.instance.value.name.Some? && m.instance.value.id.Some? ==>
      NamesRow(scope, catalog, CreateProofs.ContextOf(catalog, m, m.instance.value))
  }

  /** Both runs build the same context, the one this store makes of the message. */
  lemma ContextsTwin(w: World, v: World, m: CreateMsg)
    requires Twin(w, v) && CoversCreate(v.scope, v.db.catalog, m)
    ensures
      var t := BuildContext(v, m);
      && TwinStage(BuildContext(w, m), t) && t.w.scope == v.scope && t.w.db.catalog == v.db.catalog
      && (t.Fine? && t.value.Some? ==> NamesRow(v.scope, v.db.catalog, t.value.value))
  {
    TwinMeans(w, v);
    hide Twin, BuildContext, CreateWrites, NamesRow;
    ContextTwin(w, v, m);
    CreateProofs.ContextBuilt(v, m);
  }

  lemma CreateTwin(w: World, v: World, m: CreateMsg)
    requires Twin(w, v) && CoversCreate(v.scope, v.db.catalog, m)
    ensures TwinOutcome(CreateServer(w, m), CreateServer(v, m))
  {
    hide Twin, Own, Recreate, Fill, Cards, CreateWrites, BuildContext, InNames, CoversCreate, WritesStay;
    var w0, v0 := w.(errors := []), v.(errors := []);
    TwinRestart(w, v);
    ContextsTwin(w0, v0, m);
    var s, t := BuildContext(w0, m), BuildContext(v0, m);
    if s.Fine? && s.value.Some? {
      var ctx := s.value.value;
      RecreateTwin(s.w, t.w, ctx);
      var a, b := Recreate(s.w, ctx), Recreate(t.w, ctx);
      if a.Fine? {
        InNamesMeans(v.scope, ctx);
        FillTwin(a.w, b.w, ctx, a.value, Cards(m));
      }
    }
  }

  lemma InNamesMeans(scope: Scope, ctx: Context)
    ensures InNames(scope, ctx.hostname, ctx.uuid) ==> ctx.hostname in scope.hostnames
  {
  }

  // -- delete and resize -----------------------------------------------------------------------------------

  lemma DeleteTwin(w: World, v: World, m: DeleteMsg)
    requires Twin(w, v) && (m.instance.Some? ==> m.instance.value in v.scope.uuids)
    ensures TwinOutcome(Delete(w, m), Delete(v, m))
  {
    hide Twin, RemoveServer;
    if m.instance.Some? { RemoveTwin(w, v, m.instance.value, ""); }
  }

  lemma SetTwin(w: World, v: World, uuid: string, mutation: Cols, field: string)
    requires Twin(w, v) && uuid in v.scope.uuids && NamesStay(mutation, v.scope)
    ensures TwinOutcome(SetColumn(w, uuid, mutation, field), SetColumn(v, uuid, mutation, field))
  {
    hide Twin, Safe, Refs, Call;
    UpdateTwin(w, v, None, Some(uuid), mutation, Opts(field, true, None));
  }

  lemma ResizeTwin(w: World, v: World, m: ResizeMsg)
    requires Twin(w, v) && (m.instance.Some? ==> m.instance.value in v.scope.uuids)
    ensures TwinOutcome(Resize(w, m), Resize(v, m))
  {
    hide Twin, SetColumn;
    if m.instance.Some? {
      var uuid := m.instance.value;
      var s, t := w, v;
      if m.price.Some? {
        var price := map["server_monthly_payment" := m.price.value];
        SetTwin(w, v, uuid, price, "server_monthly_payment");
        s, t := SetColumn(w, uuid, price, "server_monthly_payment").w, SetColumn(v, uuid, price, "server_monthly_payment").w;
      }
      if m.flavor.Some? {
        SetTwin(s, t, uuid, map["flavor" := Lookup(map["name" := m.flavor.value, "region_code" := m.region])], "flavor");
      }
    }
  }

  // -- attach and detach --------------------------------------------------------------------------------------

  lemma AttachPrefixTwin(w: World, v: World, addr: string, region: string)
    requires Twin(w, v)
    ensures SafeStage(v, AttachPrefix(w, addr, region), AttachPrefix(v, addr, region))
  {
    hide Twin, Safe, Refs, Call, NetPrefix;
    NoSelCall(w, v, SelectDatacenter(region), LOOKUP_DC);
    var s, t := Call(w, SelectDatacenter(region), NoSelector, LOOKUP_DC), Call(v, SelectDatacenter(region), NoSelector, LOOKUP_DC);
    if s.answer.Got? && s.answer.reply.DatacenterRow? {
      PrefixTwin(s.w, t.w, addr, s.answer.reply.dc, None);
      SafeThen(v, t.w, NetPrefix(s.w, addr, s.answer.reply.dc, None), NetPrefix(t.w, addr, s.answer.reply.dc, None));
    }
  }

  /** Where the address goes is an own card. */
  ghost predicate OwnTarget(s: Stage<Target>) { s.Fine? && s.value.Target? ==> s.value.endpoint in OwnCards(s.w) }

  lemma ReuseTwin(w: World, v: World, m: AttachMsg, mac: Option<string>, x: EndpointView)
    requires Twin(w, v) && x.row.id in OwnCards(v)
    ensures TwinStage(Reuse(w, m, mac, x), Reuse(v, m, mac, x)) && OwnTarget(Reuse(v, m, mac, x))
  {
    var newMac, newNotes := FillMac(x, mac), FillNotes(x, m.network);
    hide Twin, Call, MyCards, Refs, FillMac, FillNotes;
    if newMac.Some? || newNotes.Some? {
      NoSelCall(w, v, UpdateEndpoint(x.row.id, newMac, newNotes), RAISES_ENDPOINT_UPDATE);
      hide Own;
    }
  }

  lemma NewCardTwin(w: World, v: World, m: AttachMsg, uuid: string, port: AttachPort, server: Id, endpoints: seq<EndpointView>)
    requires Twin(w, v) && uuid in v.scope.uuids && server in Own(v)
    ensures
      var s, t := Attachments.Create(w, m, uuid, port, server, endpoints), Attachments.Create(v, m, uuid, port, server, endpoints);
      TwinStage(s, t) && OwnTarget(t)
  {
    var op := NewEndpoint(server, m, port.mac, endpoints);
    hide Twin, Call, Mine, MyCards, Safe, Refs, NextBond;
    CallTwin(w, v, op, AttachEndpoint(port.addr, uuid, server, op.name), RAISES_ENDPOINT);
    var sel := AttachEndpoint(port.addr, uuid, server, op.name);
    CardAnswer(v, Call(w, op, sel, RAISES_ENDPOINT), Call(v, op, sel, RAISES_ENDPOINT));
  }

  lemma AttachCardTwin(w: World, v: World, m: AttachMsg, uuid: string, port: AttachPort, server: Id, endpoints: seq<EndpointView>)
    requires Twin(w, v) && uuid in v.scope.uuids && server in Own(v) && forall x :: x in endpoints ==> x.row.id in OwnCards(v)
    ensures
      var s, t := AttachCard(w, m, uuid, port, server, endpoints), AttachCard(v, m, uuid, port, server, endpoints);
      TwinStage(s, t) && OwnTarget(t)
  {
    hide Twin, Own, OwnCards, Reuse, Attachments.Create, OwnTarget;
    match Choose(endpoints, port.mac)
    case Some(x) => ReuseTwin(w, v, m, port.mac, x);
    case None => NewCardTwin(w, v, m, uuid, port, server, endpoints);
  }

  lemma AttachIpTwin(w: World, v: World, uuid: string, addr: string, op: Op)
    requires Twin(w, v) && uuid in v.scope.uuids && op.InsertIp? && op.endpointId in OwnCards(v)
    ensures TwinOutcome(AttachIp(w, uuid, addr, op), AttachIp(v, uuid, addr, op))
  {
    hide Twin, Call, Mine, MyCards, Safe, Refs;
    CallTwin(w, v, op, AttachedIp(addr, uuid), RAISES_IP);
  }

  lemma CardThenIpTwin(
    w: World, v: World, m: AttachMsg, uuid: string, port: AttachPort, server: Id, endpoints: seq<EndpointView>, prefix: Option<Prefix>)
    requires Twin(w, v) && uuid in v.scope.uuids && server in Own(v) && forall x :: x in endpoints ==> x.row.id in OwnCards(v)
    ensures TwinOutcome(
      CardThenIp(AttachCard(w, m, uuid, port, server, endpoints), uuid, port.addr, prefix, endpoints),
      CardThenIp(AttachCard(v, m, uuid, port, server, endpoints), uuid, port.addr, prefix, endpoints))
  {
    hide Twin, Own, OwnCards, AttachCard, AttachIp, NewIp, UsedKinds;
    AttachCardTwin(w, v, m, uuid, port, server, endpoints);
    var a, b := AttachCard(w, m, uuid, port, server, endpoints), AttachCard(v, m, uuid, port, server, endpoints);
    assert b.w.scope == v.scope;
    if a.Fine? && a.value.Target? {
      AttachIpTwin(a.w, b.w, uuid, port.addr, NewIp(a.value.endpoint, port.addr, prefix, UsedKinds(endpoints)));
    }
  }

  /** The last stage of an attach, from the card on. */
  function CardThenIp(card: Stage<Target>, uuid: string, addr: string, prefix: Option<Prefix>, endpoints: seq<EndpointView>): Outcome {
    if card.Broken? then Outcome(card.w, Raised(card.exn))
    else if card.value.AlreadyThere? then Outcome(card.w, Returned)
    else AttachIp(card.w, uuid, addr, NewIp(card.value.endpoint, addr, prefix, UsedKinds(endpoints)))
  }

  lemma AttachOnTwin(w: World, v: World, m: AttachMsg, uuid: string, port: AttachPort, server: Id, endpoints: seq<EndpointView>)
    requires Twin(w, v) && uuid in v.scope.uuids && server in Own(v) && forall x :: x in endpoints ==> x.row.id in OwnCards(v)
    ensures TwinOutcome(AttachOn(w, m, uuid, port, server, endpoints), AttachOn(v, m, uuid, port, server, endpoints))
  {
    hide Twin, Own, OwnCards, Safe, Refs, AttachPrefix, AttachCard, AttachIp, NewIp, UsedKinds;
    AttachPrefixTwin(w, v, port.addr, m.region);
    var s, t := AttachPrefix(w, port.addr, m.region), AttachPrefix(v, port.addr, m.region);
    if s.Fine? {
      StillOwn(v, t.w, server, endpoints);
      CardThenIpTwin(s.w, t.w, m, uuid, port, server, endpoints, s.value);
    }
  }

  lemma StillOwn(w: World, w': World, server: Id, endpoints: seq<EndpointView>)
    requires Safe(w, w') && server in Own(w) && forall x :: x in endpoints ==> x.row.id in OwnCards(w)
    ensures server in Own(w') && w'.scope == w.scope && forall x :: x in endpoints ==> x.row.id in OwnCards(w')
  {
    hide Own, OwnCards;
  }

  lemma AttachToTwin(w: World, v: World, m: AttachMsg, uuid: string, port: AttachPort, server: Id, endpoints: seq<EndpointView>)
    requires Twin(w, v) && uuid in v.scope.uuids && server in Own(v) && forall x :: x in endpoints ==> x.row.id in OwnCards(v)
    ensures TwinOutcome(AttachTo(w, m, uuid, port, server, endpoints), AttachTo(v, m, uuid, port, server, endpoints))
  {
    hide Twin, Refs, Call, AttachOn, Safe, Own, OwnCards;
    NoSelCall(w, v, SelectAttachedIp(port.addr, uuid), PROBE);
    var s, t := Call(w, SelectAttachedIp(port.addr, uuid), NoSelector, PROBE), Call(v, SelectAttachedIp(port.addr, uuid), NoSelector, PROBE);
    if s.answer == Got(Nothing) {
      StillOwn(v, t.w, server, endpoints);
      AttachOnTwin(s.w, t.w, m, uuid, port, server, endpoints);
    }
  }

  lemma AttachTwin(w: World, v: World, m: AttachMsg)
    requires Twin(w, v) && (m.instance.Some? ==> m.instance.value in v.scope.uuids)
    ensures TwinOutcome(Attach(w, m), Attach(v, m))
  {
    hide Twin, Safe, Call, AttachTo, Own, OwnCards, Refs;
    if m.instance.Some? && m.port.Some? {
      var uuid := m.instance.value;
      NoSelCall(w, v, SelectServerByUuid(uuid), RAISES_SERVER);
      var s, t := Call(w, SelectServerByUuid(uuid), NoSelector, RAISES_SERVER), Call(v, SelectServerByUuid(uuid), NoSelector, RAISES_SERVER);
      CardAnswer(v, s, t);
      SafeTurnScope(v, s, t);
      if s.answer.Got? && s.answer.reply.ServerRow? {
        AttachToTwin(s.w, t.w, m, uuid, m.port.value, s.answer.reply.server, s.answer.reply.endpoints);
      }
    }
  }

  lemma SafeTurnScope(v: World, s: Turn, t: Turn)
    requires SafeTurn(v, s, t)
    ensures t.w.scope == v.scope
  {
  }

  lemma SweepTwin(w: World, v: World, uuid: string)
    requires Twin(w, v) && uuid in v.scope.uuids
    ensures
      var op := SweepEndpoints(uuid);
      TwinTurn(Call(w, op, NoSelector, RAISES_ENDPOINT_DELETE), Call(v, op, NoSelector, RAISES_ENDPOINT_DELETE))
  {
    hide Twin, Call, OwnRequest, Keeps;
    ReadOrInsertIsOwn(v, SweepEndpoints(uuid));
    OwnCall(w, v, SweepEndpoints(uuid), RAISES_ENDPOINT_DELETE);
  }

  lemma DetachTwin(w: World, v: World, m: DetachMsg)
    requires Twin(w, v) && (m.instance.Some? ==> m.instance.value in v.scope.uuids)
    ensures TwinOutcome(Detach(w, m), Detach(v, m))
  {
    hide Twin, Safe, Call, Refs;
    if m.instance.Some? && m.addr.Some? {
      var op := DeleteAttachedIps(m.addr.value, m.instance.value);
      NoSelCall(w, v, op, RAISES_IP_DELETE);
      var s, t := Call(w, op, NoSelector, RAISES_IP_DELETE), Call(v, op, NoSelector, RAISES_IP_DELETE);
      SafeTurnScope(v, s, t);
      if s.answer.Got? { SweepTwin(s.w, t.w, m.instance.value); }
    }
  }

  // -- any message ------------------------------------------------------------------------------------------------

  /** The scope covers the names this message carries. */
  ghost predicate Covers(scope: Scope, catalog: Catalog, m: Message) {
    match m
    case CreateInstance(c) => CoversCreate(scope, catalog, c)
    case DeleteInstance(d) => d.instance.Some? ==> d.instance.value in scope.uuids
    case ResizeInstance(r) => r.instance.Some? ==> r.instance.value in scope.uuids
    case AttachAddress(a) => a.instance.Some? ==> a.instance.value in scope.uuids
    case DetachAddress(d) => d.instance.Some? ==> d.instance.value in scope.uuids
    case _ => true
  }

  lemma ProcessTwin(w: World, v: World, m: Message)
    requires Twin(w, v) && Covers(v.scope, v.db.catalog, m)
    ensures TwinOutcome(Process(w, m), Process(v, m))
  {
    hide Twin, CreateServer, Delete, Resize, Attach, Detach, CoversCreate;
    match m
    case CreateInstance(c) => CreateTwin(w, v, c);
    case DeleteInstance(d) => DeleteTwin(w, v, d);
    case ResizeInstance(r) => ResizeTwin(w, v, r);
    case AttachAddress(a) => AttachTwin(w, v, a);
    case DetachAddress(d) => DetachTwin(w, v, d);
    case _ =>
  }

  /** A message about to run on a store others share: its own names, its own session, nothing sent yet. */
  ghost predicate Fresh(w: World) {
    && w.trail == [] && w.db == w.crowd.start
    && w.scope == w.crowd.me.scope && w.session == w.crowd.me.session && w.minted == w.crowd.me.minted
  }

  /** The same message with the store to itself. */
  function ByItself(w: World): World { w.(crowd := w.crowd.(asks := [])) }

  lemma FreshTwin(w: World)
    requires Fresh(w) && Welcome(w.crowd)
    ensures Twin(w, ByItself(w))
  {
    assert Us(w.crowd) == Us(ByItself(w).crowd) && w.crowd.me in Us(w.crowd);
    hide Invited, Keyed, Unborn, Apart;
  }

  lemma {:induction false} ActsPrefix(p: Party, trail: seq<Step>, k: nat)
    requires k <= |trail|
    ensures Acts(p, trail[..k]) <= Acts(p, trail)
  {
    if k < |trail| {
      ActsPrefix(p, trail[..|trail| - 1], k);
      assert trail[..|trail| - 1][..k] == trail[..k];
    } else {
      assert trail[..k] == trail;
    }
  }

  /** Twins agree on the message's own rows. */
  lemma ViewsAgree(w: World, v: World)
    requires Twin(w, v)
    ensures View(w.db, w.scope, w.session) == View(v.db, v.scope, v.session)
  {
    var c := w.crowd;
    hide View, Company, Woven, Footed, Sound, Invited, Agree;
    ActsSame(c.me, w.trail, v.trail);
    PastWoven(c, w.trail);
    var past := Heard(c, w.trail);
    WovenPrefix(c.start, Us(c), past + Chunk(c.asks, |w.trail|), |past|);
    assert (past + Chunk(c.asks, |w.trail|))[..|past|] == past;
    Meets(c.start, Us(c), past);
    HeardMine(c, w.trail);
    AgreeMeans(v.db, w.db, Us(c), c.me, w.minted);
  }

  lemma HeardMine(c: Crowd, trail: seq<Step>)
    requires Welcome(c)
    ensures Only(Heard(c, trail), c.me) == Acts(c.me, trail)
  {
    hide Company, Woven;
    HeardAre(c, trail);
  }

  /** The own requests of a first part of the run. */
  lemma ActsUpTo(c: Crowd, trail: seq<Step>, k: nat)
    requires k <= |trail| && Woven(c.start, Us(c), Acts(c.me, trail))
    ensures Woven(c.start, Us(c), Acts(c.me, trail[..k]))
  {
    hide Woven;
    ActsPrefix(c.me, trail, k);
    WovenPrefix(c.start, Us(c), Acts(c.me, trail), |Acts(c.me, trail[..k])|);
    assert Acts(c.me, trail)[..|Acts(c.me, trail[..k])|] == Acts(c.me, trail[..k]);
  }

  /** The store a request met agrees with the one it met alone. */
  lemma PastAgrees(c: Crowd, past: seq<Step>)
    requires Welcome(c) && Woven(c.start, Us(c), Acts(c.me, past))
    ensures
      var mine := Acts(c.me, past);
      Agree(Apply(c.start, mine), Apply(c.start, Heard(c, past) + Chunk(c.asks, |past|)), Us(c), c.me, NextKey(c.me, mine))
  {
    hide Woven, Agree, Company, Invited, Apply, Acts, Heard;
    PastWoven(c, past);
    Meets(c.start, Us(c), Heard(c, past) + Chunk(c.asks, |past|));
  }

  /** A request that was the message's own when alone is so on the shared store it met. */
  lemma StepLocal(w: World, v: World, k: nat)
    requires Twin(w, v) && k < |w.trail|
    ensures Local(w.trail[k].met, w.scope, w.session, w.trail[k].op)
  {
    var c, past := w.crowd, v.trail[..k];
    hide Welcome, Woven, Sound, Agree, Local, Elder, Acts, Heard, Apply;
    ActsSame(c.me, w.trail[..k], past);
    ActsUpTo(v.crowd, v.trail, k);
    PastAgrees(c, w.trail[..k]);
    assert Footed(v.crowd, v.trail, k);
    LocalThere(Apply(c.start, Acts(c.me, past)), w.trail[k].met, Us(c), c.me, NextKey(c.me, Acts(c.me, past)), w.trail[k].op);
  }

  /**
   Non-interference: whatever requests of other messages land between this message's own,
   as long as each of those messages could have asked for them alone, it sends the same
   requests, is answered the same, ends the same way and leaves the same rows of its own
   as with the store to itself; and every request it sends is keyed by its own rows on the
   store that request meets.
   */
  lemma RunsAsAlone(w: World, m: Message)
    requires Fresh(w) && Welcome(w.crowd) && Covers(w.scope, w.db.catalog, m)
    ensures
      var among, alone := Process(w, m), Process(ByItself(w), m);
      && among.status == alone.status && among.w.log == alone.w.log && among.w.errors == alone.w.errors
      && SameSteps(among.w.trail, alone.w.trail)
      && View(among.w.db, w.scope, w.session) == View(alone.w.db, w.scope, w.session)
      && (forall k :: 0 <= k < |among.w.trail| ==> Local(among.w.trail[k].met, w.scope, w.session, among.w.trail[k].op))
  {
    hide Process, Covers, View, Local, Welcome, Fresh, Alone, Grounded;
    FreshTwin(w);
    ProcessTwin(w, ByItself(w), m);
    var a, b := Process(w, m).w, Process(ByItself(w), m).w;
    ViewsAgree(a, b);
    forall k | 0 <= k < |a.trail| ensures Local(a.trail[k].met, w.scope, w.session, a.trail[k].op) { StepLocal(a, b, k); }
  }
}
