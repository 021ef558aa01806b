/** Attach: what one delivery can do, and why any number of deliveries attaches once. */
module AttachProofs {
  import opened Basics
  import opened BondNames
  import opened Cmdb
  import opened Planning
  import opened Retry
  import opened RetryProofs
  import opened StoreFacts
  import opened Attachments

  /** The rows for this address on servers with this uuid. */
  function OnHost(db: Db, addr: string, uuid: string): seq<Ip> { Filter(db.ips, AttachedTo(db, addr, uuid)) }

  // -- the stages ---------------------------------------------------------------------------

  lemma PrefixStage(w: World, addr: string, region: string)
    requires Quiet(w)
    ensures
      var s := AttachPrefix(w, addr, region);
      s.w.db == w.db && s.w.minted == w.minted && s.w.errors == w.errors && Quiet(s.w)
  {
    hide Commit, Reads, Call;
    ReadCall(w, SelectDatacenter(region), LOOKUP_DC);
    var t := Call(w, SelectDatacenter(region), NoSelector, LOOKUP_DC);
    if t.answer.Got? && t.answer.reply.DatacenterRow? {
      ReadCall(t.w, SelectPrefixes(t.answer.reply.dc), Opts("network_prefix", false, None));
    }
  }

  /** A failed lookup degrades to no prefix, and never to another one. */
  lemma PrefixTells(w: World, addr: string, region: string)
    requires Quiet(w)
    ensures
      var s := AttachPrefix(w, addr, region);
      s.Fine? ==> s.value == None || s.value == StorePrefix(w.db.catalog, region, addr)
  {
    hide Commit, Call, First;
    ReadCall(w, SelectDatacenter(region), LOOKUP_DC);
    var t := Call(w, SelectDatacenter(region), NoSelector, LOOKUP_DC);
    if t.answer.Got? && t.answer.reply.DatacenterRow? {
      ReadCall(t.w, SelectPrefixes(t.answer.reply.dc), Opts("network_prefix", false, None));
    }
  }

  /** The store after the chosen endpoint's missing mac and notes are filled in. */
  function FilledIn(db: Db, m: AttachMsg, mac: Option<string>, v: EndpointView): Db {
    db.(endpoints := Map(db.endpoints, Filled(v.row.id, FillMac(v, mac), FillNotes(v, m.network))))
  }

  lemma ReuseStage(w: World, m: AttachMsg, mac: Option<string>, v: EndpointView)
    requires Quiet(w)
    ensures
      var s := Reuse(w, m, mac, v);
      && s.w.minted == w.minted && s.w.errors == w.errors && Quiet(s.w)
      && (s.w.db == w.db || s.w.db == FilledIn(w.db, m, mac, v))
      && (s.Fine? ==> s.w.db == FilledIn(w.db, m, mac, v) && s.value == Target(v.row.id))
  {
    hide Call, Reads;
    var newMac, newNotes := FillMac(v, mac), FillNotes(v, m.network);
    if newMac.None? && newNotes.None? {
      assert FilledIn(w.db, m, mac, v).endpoints == w.db.endpoints;
    } else {
      WriteCall(w, UpdateEndpoint(v.row.id, newMac, newNotes), RAISES_ENDPOINT_UPDATE);
    }
  }

  lemma ViewNames(db: Db, server: Id)
    ensures forall e :: e in db.endpoints && e.serverId == server ==> e.name in Map(ViewOf(db, server), NameOf())
    ensures forall v :: v in ViewOf(db, server) ==>
      v.row in db.endpoints && v.row.serverId == server && v.ips == Filter(db.ips, OnEndpoint(v.row.id))
    ensures forall e :: e in db.endpoints && e.serverId == server
                  ==> EndpointView(e, Filter(db.ips, OnEndpoint(e.id))) in ViewOf(db, server)
  {
    var rows := Filter(db.endpoints, OnServer(server));
    var views := ViewOf(db, server);
    forall e | e in db.endpoints && e.serverId == server
      ensures EndpointView(e, Filter(db.ips, OnEndpoint(e.id))) in views && e.name in Map(views, NameOf())
    {
      assert e in rows;
      var i :| 0 <= i < |rows| && rows[i] == e;
      assert views[i] == EndpointView(e, Filter(db.ips, OnEndpoint(e.id)));
      assert Map(views, NameOf())[i] == e.name;
    }
    forall v | v in views
      ensures v.row in db.endpoints && v.row.serverId == server && v.ips == Filter(db.ips, OnEndpoint(v.row.id))
    {
      var i :| 0 <= i < |views| && views[i] == v;
      assert v == EndpointView(rows[i], Filter(db.ips, OnEndpoint(rows[i].id))) && rows[i] in rows;
    }
  }

  /** A new endpoint carries no address yet, so it does not change who holds one. */
  lemma NewCardHoldsNothing(db: Db, op: Op, session: nat, minted: nat, addr: string, uuid: string)
    requires op.InsertEndpoint? && Unborn(db, session, minted)
    ensures OnHost(Commit(db, op, Id(session, minted)), addr, uuid) == OnHost(db, addr, uuid)
    ensures forall ip :: ip in db.ips ==> Attached(Commit(db, op, Id(session, minted)), ip, addr, uuid) == Attached(db, ip, addr, uuid)
  {
    var id := Id(session, minted);
    var db' := Commit(db, op, id);
    forall ip | ip in db.ips ensures AttachedTo(db, addr, uuid)(ip) == AttachedTo(db', addr, uuid)(ip) {
      assert ip.endpointId != id;
      assert forall e :: e in db'.endpoints && e.id == ip.endpointId ==> e in db.endpoints;
      assert forall s :: ServerHasUuid(db, s, uuid) == ServerHasUuid(db', s, uuid);
      if EndpointOnUuid(db, ip.endpointId, uuid) {
        var e :| e in db.endpoints && e.id == ip.endpointId && ServerHasUuid(db, e.serverId, uuid);
        assert e in db'.endpoints;
      }
    }
    FilterSame(db.ips, AttachedTo(db, addr, uuid), AttachedTo(db', addr, uuid));
  }

  lemma NameIsFree(db: Db, m: AttachMsg, mac: Option<string>, server: Id)
    ensures forall e :: e in db.endpoints ==> !Named(server, NewEndpoint(server, m, mac, ViewOf(db, server)).name)(e)
  {
    ViewNames(db, server);
    NextBondIsLeastFree(Map(ViewOf(db, server), NameOf()));
  }

  lemma NewCardIsNamed(db: Db, op: Op, id: Id)
    requires op.InsertEndpoint? && forall e :: e in db.endpoints ==> !Named(op.serverId, op.name)(e)
    ensures First(Commit(db, op, id).endpoints, Named(op.serverId, op.name))
         == Some(Endpoint(id, op.serverId, op.name, op.mac, op.notes))
  {
    var row := Endpoint(id, op.serverId, op.name, op.mac, op.notes);
    FilterSnoc(db.endpoints, row, Named(op.serverId, op.name));
    FilterNone(db.endpoints, Named(op.serverId, op.name));
    FirstIsFilterHead(Commit(db, op, id).endpoints, Named(op.serverId, op.name));
  }

  /** A re-select for a new card: by the address if it is on the host, else by the name. */
  lemma CardMayFind(db: Db, addr: string, uuid: string, server: Id, name: string, reply: Reply)
    requires MayFind(AttachEndpoint(addr, uuid, server, name), db, reply)
    ensures reply == Reads(db, SelectEndpointByName(server, name), Id(0, 0))
         || (reply.EndpointRef? && reply.viaIp && OnHost(db, addr, uuid) != [])
  {
    hide EndpointOnUuid, EndpointName, Filter, First;
    FirstIsFilterHead(db.ips, AttachedTo(db, addr, uuid));
  }

  /** By its name only the new card is found, and nothing before it is there. */
  lemma NewCardByName(db: Db, m: AttachMsg, mac: Option<string>, server: Id, id: Id)
    ensures
      var op := NewEndpoint(server, m, mac, ViewOf(db, server));
      var q := SelectEndpointByName(server, op.name);
      && Reads(db, q, Id(0, 0)) == Nothing
      && Reads(Commit(db, op, id), q, Id(0, 0)) == EndpointRef(id, op.name, false)
  {
    hide ViewOf, NextBond;
    var op := NewEndpoint(server, m, mac, ViewOf(db, server));
    NameIsFree(db, m, mac, server);
    NewCardIsNamed(db, op, id);
  }

  /** What inserting a new card can end in, under every tape. */
  ghost predicate Created(w: World, m: AttachMsg, uuid: string, port: AttachPort, server: Id, s: Stage<Target>) {
    var carded := Commit(w.db, NewEndpoint(server, m, port.mac, ViewOf(w.db, server)), FreshId(w));
    && s.w.errors == w.errors && Quiet(s.w)
    && (|| (s.w.db == w.db && s.w.minted == w.minted)
        || (s.w.db == carded && s.w.minted == w.minted + 1))
    && (s.Fine? ==>
          || (s.w.db == carded && s.w.minted == w.minted + 1 && s.value == Target(FreshId(w)))
          || (s.value == AlreadyThere && OnHost(s.w.db, port.addr, uuid) != []))
  }

  lemma CreateStage(w: World, m: AttachMsg, uuid: string, port: AttachPort, server: Id)
    requires Quiet(w)
    ensures Created(w, m, uuid, port, server, Create(w, m, uuid, port, server, ViewOf(w.db, server)))
  {
    hide Call, Commit, Finds, ViewOf, NextBond, OnHost, MayFind, Attempts;
    var op := NewEndpoint(server, m, port.mac, ViewOf(w.db, server));
    var sel := AttachEndpoint(port.addr, uuid, server, op.name);
    NewCardByName(w.db, m, port.mac, server, FreshId(w));
    assert Reads(w.db, op, FreshId(w)) == EndpointRef(FreshId(w), op.name, false);
    hide Reads;
    CallIsAttempts(w, op, sel, RAISES_ENDPOINT);
    EndpointAtMostOnce(w, op, port.addr, uuid, RAISES_ENDPOINT, 1);
    var t := Call(w, op, sel, RAISES_ENDPOINT);
    if t.answer.Got? && MayFind(sel, t.w.db, t.answer.reply) {
      CardMayFind(t.w.db, port.addr, uuid, server, op.name, t.answer.reply);
    }
  }

  lemma CallIsAttempts(w: World, op: Op, sel: Selector, o: Opts)
    ensures Call(w, op, sel, o) == Attempts(w, op, sel, o, 1)
  {
    hide Attempts;
  }

  lemma NewIpOnHost(db: Db, op: Op, addr: string, uuid: string, id: Id)
    requires op.InsertIp? && op.addr == addr && EndpointOnUuid(db, op.endpointId, uuid) && OnHost(db, addr, uuid) == []
    ensures OnHost(Commit(db, op, id), addr, uuid) == [Ip(id, op.endpointId, addr, op.kind, op.prefix)]
  {
    var db' := Commit(db, op, id);
    var row := Ip(id, op.endpointId, addr, op.kind, op.prefix);
    assert forall k :: EndpointOnUuid(db', k, uuid) == EndpointOnUuid(db, k, uuid);
    hide EndpointOnUuid, Filter;
    assert AttachedTo(db', addr, uuid)(row);
    FilterSame(db.ips, AttachedTo(db, addr, uuid), AttachedTo(db', addr, uuid));
    FilterSnoc(db.ips, row, AttachedTo(db', addr, uuid));
  }

  /** The probe finds nothing exactly when the host has no row for the address. */
  lemma ProbeFinds(db: Db, addr: string, uuid: string)
    ensures Finds(AttachedIp(addr, uuid), db) == Nothing <==> OnHost(db, addr, uuid) == []
  {
    hide EndpointOnUuid, Filter, First, EndpointName;
    FirstIsFilterHead(db.ips, AttachedTo(db, addr, uuid));
  }

  lemma IpDetected(db: Db, op: Op, addr: string, uuid: string)
    requires op.InsertIp? && op.addr == addr && EndpointOnUuid(db, op.endpointId, uuid) && OnHost(db, addr, uuid) == []
    ensures Detects(AttachedIp(addr, uuid), db, op) && Finds(AttachedIp(addr, uuid), db) == Nothing
    ensures forall id :: OnHost(Commit(db, op, id), addr, uuid) == [Ip(id, op.endpointId, addr, op.kind, op.prefix)]
  {
    hide OnHost, Finds, Commit, EndpointOnUuid;
    ProbeFinds(db, addr, uuid);
    forall id
      ensures Finds(AttachedIp(addr, uuid), Commit(db, op, id)) != Nothing
      ensures OnHost(Commit(db, op, id), addr, uuid) == [Ip(id, op.endpointId, addr, op.kind, op.prefix)]
    {
      NewIpOnHost(db, op, addr, uuid, id);
      ProbeFinds(Commit(db, op, id), addr, uuid);
    }
  }

  lemma IpStage(w: World, uuid: string, addr: string, op: Op)
    requires Quiet(w) && op.InsertIp? && op.addr == addr && EndpointOnUuid(w.db, op.endpointId, uuid)
    requires OnHost(w.db, addr, uuid) == [] && Honest(AttachIp(w, uuid, addr, op).w.log)
    ensures
      var o := AttachIp(w, uuid, addr, op);
      var landed := Commit(w.db, op, FreshId(w));
      && o.w.errors == w.errors && Quiet(o.w)
      && (|| (o.w.db == w.db && o.w.minted == w.minted)
          || (o.w.db == landed && o.w.minted == w.minted + 1))
      && (o.status.Returned? ==> o.w.db == landed && o.w.minted == w.minted + 1)
  {
    IpDetected(w.db, op, addr, uuid);
    hide Call, Reads, Commit, Finds;
    InsertCall(w, op, AttachedIp(addr, uuid), RAISES_IP);
  }

  // -- one delivery ---------------------------------------------------------------------------

  /** The store once the endpoint an attach settles on is in place. */
  ghost function Carded(db: Db, m: AttachMsg, mac: Option<string>, server: Id, id: Id): Db {
    match Choose(ViewOf(db, server), mac)
    case Some(v) => FilledIn(db, m, mac, v)
    case None => Commit(db, NewEndpoint(server, m, mac, ViewOf(db, server)), id)
  }

  /** The endpoint an attach settles on. */
  ghost function CardKey(db: Db, mac: Option<string>, server: Id, id: Id): Id {
    match Choose(ViewOf(db, server), mac)
    case Some(v) => v.row.id
    case None => id
  }

  /** Keys handed out once the endpoint is in place. */
  ghost function MintedWithCard(db: Db, mac: Option<string>, server: Id, minted: nat): nat {
    if Choose(ViewOf(db, server), mac).Some? then minted else minted + 1
  }

  /** The address row one attach may add. */
  ghost predicate AddsIp(carded: Db, db': Db, card: Id, addr: string, used: set<Option<string>>, id: Id) {
    exists prefix :: db' == Commit(carded, NewIp(card, addr, prefix, used), id)
  }

  /** An attach on a found server: nothing, the endpoint, or the endpoint and the address. */
  ghost predicate Delivered(w: World, m: AttachMsg, port: AttachPort, server: Id, o: Outcome) {
    var id := FreshId(w);
    var carded := Carded(w.db, m, port.mac, server, id);
    var grown := MintedWithCard(w.db, port.mac, server, w.minted);
    var added := AddsIp(carded, o.w.db, CardKey(w.db, port.mac, server, id), port.addr, UsedKinds(ViewOf(w.db, server)), Id(w.session, grown));
    && o.w.errors == w.errors && Quiet(o.w)
    && (|| (o.w.db == w.db && o.w.minted == w.minted)
        || (o.w.db == carded && o.w.minted == grown)
        || (added && o.w.minted == grown + 1))
    && (o.status.Returned? ==> added && o.w.minted == grown + 1)
  }

  /** The same cards on the same servers put the same addresses on a host. */
  lemma SameHosts(db: Db, db': Db, uuid: string)
    requires db'.servers == db.servers && |db'.endpoints| == |db.endpoints|
    requires forall i :: 0 <= i < |db.endpoints| ==>
      db'.endpoints[i].id == db.endpoints[i].id && db'.endpoints[i].serverId == db.endpoints[i].serverId
    ensures forall id :: EndpointOnUuid(db', id, uuid) == EndpointOnUuid(db, id, uuid)
  {
    forall id ensures EndpointOnUuid(db', id, uuid) == EndpointOnUuid(db, id, uuid) {
      if EndpointOnUuid(db, id, uuid) {
        var e :| e in db.endpoints && e.id == id && ServerHasUuid(db, e.serverId, uuid);
        var i :| 0 <= i < |db.endpoints| && db.endpoints[i] == e;
        assert db'.endpoints[i] in db'.endpoints && ServerHasUuid(db', db'.endpoints[i].serverId, uuid);
      }
      if EndpointOnUuid(db', id, uuid) {
        var e :| e in db'.endpoints && e.id == id && ServerHasUuid(db', e.serverId, uuid);
        var i :| 0 <= i < |db'.endpoints| && db'.endpoints[i] == e;
        assert db.endpoints[i] in db.endpoints && ServerHasUuid(db, db.endpoints[i].serverId, uuid);
      }
    }
  }

  lemma FilledKeeps(db: Db, m: AttachMsg, mac: Option<string>, v: EndpointView, addr: string, uuid: string)
    ensures OnHost(FilledIn(db, m, mac, v), addr, uuid) == OnHost(db, addr, uuid)
    ensures forall id :: EndpointOnUuid(FilledIn(db, m, mac, v), id, uuid) == EndpointOnUuid(db, id, uuid)
  {
    var db' := FilledIn(db, m, mac, v);
    SameHosts(db, db', uuid);
    hide EndpointOnUuid;
    FilterSame(db.ips, AttachedTo(db, addr, uuid), AttachedTo(db', addr, uuid));
  }

  /** The chosen card is on the host, and putting it in place moves no address. */
  lemma CardedReady(db: Db, m: AttachMsg, port: AttachPort, server: Id, uuid: string, session: nat, minted: nat)
    requires Unborn(db, session, minted) && ServerHasUuid(db, server, uuid)
    ensures
      var carded := Carded(db, m, port.mac, server, Id(session, minted));
      && OnHost(carded, port.addr, uuid) == OnHost(db, port.addr, uuid)
      && EndpointOnUuid(carded, CardKey(db, port.mac, server, Id(session, minted)), uuid)
  {
    var id := Id(session, minted);
    match Choose(ViewOf(db, server), port.mac)
    case Some(v) =>
      ViewNames(db, server);
      FilledKeeps(db, m, port.mac, v, port.addr, uuid);
    case None =>
      var op := NewEndpoint(server, m, port.mac, ViewOf(db, server));
      NewCardHoldsNothing(db, op, session, minted, port.addr, uuid);
      var row := Endpoint(id, server, op.name, op.mac, op.notes);
      assert row in Commit(db, op, id).endpoints && ServerHasUuid(Commit(db, op, id), server, uuid);
  }

  /** What putting the card in place can end in, under every tape. */
  ghost predicate CardInPlace(w: World, m: AttachMsg, uuid: string, port: AttachPort, server: Id, s: Stage<Target>) {
    var id := FreshId(w);
    var carded := Carded(w.db, m, port.mac, server, id);
    var grown := MintedWithCard(w.db, port.mac, server, w.minted);
    && s.w.errors == w.errors && Quiet(s.w)
    && ((s.w.db == w.db && s.w.minted == w.minted) || (s.w.db == carded && s.w.minted == grown))
    && (s.Fine? ==>
          || (s.w.db == carded && s.w.minted == grown && s.value == Target(CardKey(w.db, port.mac, server, id)))
          || (s.value == AlreadyThere && OnHost(s.w.db, port.addr, uuid) != []))
  }

  lemma CardStage(w: World, m: AttachMsg, uuid: string, port: AttachPort, server: Id)
    requires Quiet(w)
    ensures CardInPlace(w, m, uuid, port, server, AttachCard(w, m, uuid, port, server, ViewOf(w.db, server)))
  {
    hide Commit, ViewOf, Reuse, Create, FilledIn, OnHost;
    match Choose(ViewOf(w.db, server), port.mac)
    case Some(v) => ReuseStage(w, m, port.mac, v);
    case None => CreateStage(w, m, uuid, port, server);
  }

  lemma AttachOnDelivers(w: World, m: AttachMsg, uuid: string, port: AttachPort, server: Id)
    requires Quiet(w) && Sound(w) && ServerHasUuid(w.db, server, uuid) && OnHost(w.db, port.addr, uuid) == []
    requires Honest(AttachOn(w, m, uuid, port, server, ViewOf(w.db, server)).w.log)
    ensures Delivered(w, m, port, server, AttachOn(w, m, uuid, port, server, ViewOf(w.db, server)))
    ensures AttachOn(w, m, uuid, port, server, ViewOf(w.db, server)).w.errors == w.errors
    ensures Quiet(AttachOn(w, m, uuid, port, server, ViewOf(w.db, server)).w)
  {
    hide ViewOf, OnHost, Carded, CardKey, AttachCard, AttachIp, AttachPrefix, ServerHasUuid, EndpointOnUuid, UsedKinds, Choose;
    var endpoints := ViewOf(w.db, server);
    var o := AttachOn(w, m, uuid, port, server, endpoints);
    PrefixStage(w, port.addr, m.region);
    var prefix := AttachPrefix(w, port.addr, m.region);
    if prefix.Fine? {
      var card := AttachCard(prefix.w, m, uuid, port, server, endpoints);
      CardStage(prefix.w, m, uuid, port, server);
      if card.Fine? {
        CardedReady(w.db, m, port, server, uuid, w.session, w.minted);
        var op := NewIp(card.value.endpoint, port.addr, prefix.value, UsedKinds(endpoints));
        IpStage(card.w, uuid, port.addr, op);
      }
    }
  }

  /** What one delivery of an attach message does, whatever the faults. */
  ghost predicate Result(w: World, m: AttachMsg, o: Outcome) {
    && o.w.errors == w.errors && Quiet(o.w)
    && if m.instance.None? || m.port.None? then o.w.db == w.db && o.w.minted == w.minted && o.status.Returned?
       else
         match First(w.db.servers, Matching(None, Some(m.instance.value)))
         case None => o.w.db == w.db && o.w.minted == w.minted
         case Some(s) =>
           if OnHost(w.db, m.port.value.addr, m.instance.value) != [] then o.w.db == w.db && o.w.minted == w.minted
           else (o.w.db == w.db && o.w.minted == w.minted && !o.status.Returned?) || Delivered(w, m, m.port.value, s.id, o)
  }

  lemma AttachToDelivers(w: World, m: AttachMsg, uuid: string, port: AttachPort, server: Id)
    requires Quiet(w) && Sound(w) && ServerHasUuid(w.db, server, uuid)
    requires Honest(AttachTo(w, m, uuid, port, server, ViewOf(w.db, server)).w.log)
    ensures
      var o := AttachTo(w, m, uuid, port, server, ViewOf(w.db, server));
      && o.w.errors == w.errors && Quiet(o.w)
      && if OnHost(w.db, port.addr, uuid) != [] then o.w.db == w.db && o.w.minted == w.minted
         else (o.w.db == w.db && o.w.minted == w.minted && !o.status.Returned?) || Delivered(w, m, port, server, o)
  {
    hide ViewOf, AttachOn, Call, Delivered, Reads;
    var o := AttachTo(w, m, uuid, port, server, ViewOf(w.db, server));
    ProbeCall(w, port.addr, uuid);
    var probe := Call(w, SelectAttachedIp(port.addr, uuid), NoSelector, PROBE);
    HonestPrefix(probe.w.log, o.w.log);
    ProbeTells(w.db, port.addr, uuid, FreshId(w));
    if probe.answer == Got(Nothing) {
      AttachOnDelivers(probe.w, m, uuid, port, server);
      SameDelivery(w, probe.w, m, port, server, o);
    }
  }

  lemma ProbeTells(db: Db, addr: string, uuid: string, id: Id)
    ensures Reads(db, SelectAttachedIp(addr, uuid), id) == Nothing <==> OnHost(db, addr, uuid) == []
  {
    FirstIsFilterHead(db.ips, AttachedTo(db, addr, uuid));
  }

  /** Every delivery, under every fault tape, does one of four things; once attached, nothing. */
  lemma AttachDelivers(w: World, m: AttachMsg)
    requires Quiet(w) && Sound(w) && Honest(Attach(w, m).w.log)
    ensures Result(w, m, Attach(w, m))
  {
    hide First, Keyed, Unborn, ViewOf, Is;
    if m.instance.Some? && m.port.Some? {
      var uuid, port := m.instance.value, m.port.value;
      var found := Call(w, SelectServerByUuid(uuid), NoSelector, RAISES_SERVER);
      var o := Attach(w, m);
      assert Reads(w.db, SelectServerByUuid(uuid), FreshId(w)) ==
        match First(w.db.servers, Matching(None, Some(uuid)))
        case Some(s) => ServerRow(s.id, ViewOf(w.db, s.id))
        case None => Nothing;
      hide ViewOf, AttachTo, Call, Delivered, Reads, Commit;
      ReadCall(w, SelectServerByUuid(uuid), RAISES_SERVER);
      if found.answer.Got? && found.answer.reply.ServerRow? {
        AttachToDelivers(found.w, m, uuid, port, found.answer.reply.server);
        if Delivered(found.w, m, port, found.answer.reply.server, o) {
          SameDelivery(w, found.w, m, port, found.answer.reply.server, o);
        }
      }
    }
  }

  lemma SameDelivery(w: World, w0: World, m: AttachMsg, port: AttachPort, server: Id, o: Outcome)
    requires w.db == w0.db && w.minted == w0.minted && w.session == w0.session && w.errors == w0.errors
    requires Delivered(w0, m, port, server, o)
    ensures Delivered(w, m, port, server, o)
  {
    hide Carded, CardKey, AddsIp, ViewOf, Choose, UsedKinds;
  }
}
