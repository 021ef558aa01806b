/**
 One message's own rows: what a request keyed by them reads and writes is decided by
 those rows alone, and leaves every other row as it was.
 */
module Locality {
  import opened Basics
  import opened Cmdb
  import opened Retry
  import opened RetryProofs
  import opened StoreFacts

  // -- views ---------------------------------------------------------------------------------

  /** The keys of the servers, and of the endpoints, that belong to a message. */
  function Mine(db: Db, scope: Scope, session: nat): (r: set<Id>) {
    ServerIds(View(db, scope, session))
  }

  function MyCards(db: Db, scope: Scope, session: nat): (r: set<Id>) {
    EndpointIds(View(db, scope, session))
  }

  lemma MineMeans(db: Db, scope: Scope, session: nat, id: Id)
    ensures id in Mine(db, scope, session) <==> exists s :: s in db.servers && s.id == id && InScope(s, scope, session)
  {
    var rows := Filter(db.servers, OwnServers(scope, session));
    if id in Mine(db, scope, session) {
      var s :| s in rows && s.id == id;
      assert s in db.servers && InScope(s, scope, session);
    }
    if s :| s in db.servers && s.id == id && InScope(s, scope, session) {
      assert s in rows;
    }
  }

  lemma MyCardsMeans(db: Db, scope: Scope, session: nat, id: Id)
    ensures id in MyCards(db, scope, session) <==> exists e :: e in db.endpoints && e.id == id && e.serverId in Mine(db, scope, session)
  {
    var rows := Filter(db.endpoints, OwnEndpoints(Mine(db, scope, session)));
    assert View(db, scope, session).endpoints == rows;
    if id in MyCards(db, scope, session) {
      var e :| e in rows && e.id == id;
      assert e in db.endpoints;
    }
    if e :| e in db.endpoints && e.id == id && e.serverId in Mine(db, scope, session) {
      assert e in rows;
    }
  }

  /** The view, part by part. */
  lemma ViewParts(db: Db, scope: Scope, session: nat)
    ensures
      var v := View(db, scope, session);
      && v.servers == Filter(db.servers, OwnServers(scope, session))
      && v.rails == Filter(db.rails, OwnRails(Mine(db, scope, session)))
      && v.endpoints == Filter(db.endpoints, OwnEndpoints(Mine(db, scope, session)))
      && v.ips == Filter(db.ips, OwnIps(MyCards(db, scope, session)))
  {
  }

  // -- filters -------------------------------------------------------------------------------

  lemma {:induction false} FilterSwap<T(!new)>(s: seq<T>, p: T -> bool, q: T -> bool)
    ensures Filter(Filter(s, p), q) == Filter(Filter(s, q), p)
  {
    if s != [] {
      FilterSwap(s[1..], p, q);
      if p(s[0]) { assert Filter(s, p)[1..] == Filter(s[1..], p); }
      if q(s[0]) { assert Filter(s, q)[1..] == Filter(s[1..], q); }
    }
  }

  lemma {:induction false} FilterMap<T(!new)>(s: seq<T>, f: T -> T, p: T -> bool)
    requires forall x :: x in s ==> p(f(x)) == p(x)
    ensures Filter(Map(s, f), p) == Map(Filter(s, p), f)
  {
    if s != [] {
      assert s[0] in s;
      FilterMap(s[1..], f, p);
      assert Map(s, f)[1..] == Map(s[1..], f);
      if p(s[0]) { assert ([s[0]] + Filter(s[1..], p))[1..] == Filter(s[1..], p); }
    }
  }

  lemma FirstWithin<T(!new)>(s: seq<T>, p: T -> bool, q: T -> bool)
    requires forall x :: x in s && q(x) ==> p(x)
    ensures First(Filter(s, p), q) == First(s, q)
    ensures Filter(Filter(s, p), q) == Filter(s, q)
  {
    FilterWithin(s, p, q);
    FirstIsFilterHead(s, q);
    FirstIsFilterHead(Filter(s, p), q);
  }

  // -- which requests are keyed by the message's own rows ---------------------------------------

  ghost predicate Names(scope: Scope, hostname: Option<string>, uuid: Option<string>) {
    || (hostname.Some? && hostname.value in scope.hostnames)
    || (uuid.Some? && uuid.value in scope.uuids)
  }

  ghost predicate OnlyNames(scope: Scope, hostname: Option<string>, uuid: Option<string>) {
    && (hostname.Some? ==> hostname.value in scope.hostnames)
    && (uuid.Some? ==> uuid.value in scope.uuids)
  }

  /** The mutation gives a row no names but the message's own. */
  ghost predicate NamesStay(m: Cols, scope: Scope) {
    && ("hostname" in m ==> m["hostname"].Text? && m["hostname"].text in scope.hostnames)
    && ("uuid" in m ==> m["uuid"].Text? && m["uuid"].text in scope.uuids)
  }

  /** A row this message may update is in scope before and after. */
  lemma UpdatedInScope(s: Server, scope: Scope, session: nat, h: Option<string>, u: Option<string>, m: Cols)
    requires Names(scope, h, u) && NamesStay(m, scope)
    ensures InScope(Mutated(h, u, m)(s), scope, session) == InScope(s, scope, session)
  {
  }

  /** A new row carries a hostname and a uuid the message names. */
  ghost predicate NamedIn(cols: Cols, scope: Scope) {
    && "hostname" in cols && cols["hostname"].Text? && cols["hostname"].text in scope.hostnames
    && "uuid" in cols && cols["uuid"].Text? && cols["uuid"].text in scope.uuids
  }

  /** No row of this key belongs to anyone else. */
  ghost predicate OwnServer(db: Db, scope: Scope, session: nat, id: Id) {
    forall s :: s in db.servers && s.id == id ==> InScope(s, scope, session)
  }

  ghost predicate OwnRail(db: Db, scope: Scope, session: nat, id: Id) {
    forall r :: r in db.rails && r.id == id ==> r.serverId in Mine(db, scope, session)
  }

  /** The request is keyed by this message's hostname, uuid, or by the key of one of its own rows. */
  ghost predicate Local(db: Db, scope: Scope, session: nat, op: Op) {
    match op
    case SelectServerByUuid(u) => u in scope.uuids
    case SelectServerByHostname(h) => h in scope.hostnames
    case SelectServers(h, u) => OnlyNames(scope, h, u)
    case InsertServer(cols) => NamedIn(cols, scope)
    case UpdateServers(h, u, m) => Names(scope, h, u) && (Accepted(db, m) ==> NamesStay(m, scope))
    case DeleteServer(s) => OwnServer(db, scope, session, s)
    case DeleteRail(r) => OwnRail(db, scope, session, r)
    case SelectEndpointByName(s, _) => s in Mine(db, scope, session)
    case SelectEndpointByMac(s, _) => s in Mine(db, scope, session)
    case InsertEndpoint(s, _, _, _) => s in Mine(db, scope, session)
    case UpdateEndpoint(e, _, _) => e in MyCards(db, scope, session)
    case SweepEndpoints(u) => u in scope.uuids
    case SelectAttachedIp(_, u) => u in scope.uuids
    case SelectIp(_, e, _) => e in MyCards(db, scope, session)
    case InsertIp(e, _, _, _) => e in MyCards(db, scope, session)
    case DeleteAttachedIps(_, u) => u in scope.uuids
    case _ => true
  }

  // -- reads see only the view --------------------------------------------------------------------

  lemma ViewOfLocal(db: Db, scope: Scope, session: nat, server: Id)
    requires server in Mine(db, scope, session)
    ensures ViewOf(View(db, scope, session), server) == ViewOf(db, server)
  {
    var v := View(db, scope, session);
    var mine := Mine(db, scope, session);
    ViewParts(db, scope, session);
    FilterWithin(db.endpoints, OwnEndpoints(mine), OnServer(server));
    var rows := Filter(db.endpoints, OnServer(server));
    forall e | e in rows ensures Filter(v.ips, OnEndpoint(e.id)) == Filter(db.ips, OnEndpoint(e.id)) {
      MyCardsMeans(db, scope, session, e.id);
      FilterWithin(db.ips, OwnIps(MyCards(db, scope, session)), OnEndpoint(e.id));
    }
    hide View, Mine, MyCards, Filter;
    MapEqual(rows, (e: Endpoint) => EndpointView(e, Filter(v.ips, OnEndpoint(e.id))), (e: Endpoint) => EndpointView(e, Filter(db.ips, OnEndpoint(e.id))));
  }

  lemma DoomedLocal(db: Db, scope: Scope, session: nat, s: Server)
    requires s.id in Mine(db, scope, session)
    ensures DoomedRow(View(db, scope, session))(s) == DoomedRow(db)(s)
  {
    ViewParts(db, scope, session);
    FilterWithin(db.rails, OwnRails(Mine(db, scope, session)), RailOf(s.id));
  }

  /** A row that matches a name of the scope is in scope. */
  lemma MatchInScope(s: Server, scope: Scope, session: nat, h: Option<string>, u: Option<string>)
    ensures Names(scope, h, u) && WhereServer(s, h, u) ==> InScope(s, scope, session)
    ensures OnlyNames(scope, h, u) && AnyServer(s, h, u) ==> InScope(s, scope, session)
  {
  }

  lemma HasUuidLocal(db: Db, scope: Scope, session: nat, id: Id, u: string)
    requires u in scope.uuids
    ensures ServerHasUuid(View(db, scope, session), id, u) == ServerHasUuid(db, id, u)
    ensures ServerHasUuid(db, id, u) ==> id in Mine(db, scope, session)
  {
    ViewParts(db, scope, session);
    MineMeans(db, scope, session, id);
    hide View, Mine;
    if s :| s in db.servers && s.id == id && Is(s, "uuid", u) {
      assert InScope(s, scope, session);
      assert s in View(db, scope, session).servers;
    }
  }

  lemma HasIpsLocal(db: Db, scope: Scope, session: nat, id: Id)
    requires id in MyCards(db, scope, session)
    ensures HasIps(View(db, scope, session), id) == HasIps(db, id)
  {
    ViewParts(db, scope, session);
    hide View, MyCards;
    if ip :| ip in db.ips && ip.endpointId == id {
      assert ip in View(db, scope, session).ips;
    }
  }

  lemma OnUuidLocal(db: Db, scope: Scope, session: nat, id: Id, u: string)
    requires u in scope.uuids
    ensures EndpointOnUuid(View(db, scope, session), id, u) == EndpointOnUuid(db, id, u)
    ensures EndpointOnUuid(db, id, u) ==> id in MyCards(db, scope, session)
  {
    ViewParts(db, scope, session);
    MyCardsMeans(db, scope, session, id);
    var v := View(db, scope, session);
    hide View, Mine, MyCards;
    if e :| e in db.endpoints && e.id == id && ServerHasUuid(db, e.serverId, u) {
      HasUuidLocal(db, scope, session, e.serverId, u);
      assert e in v.endpoints;
    }
    if e :| e in v.endpoints && e.id == id && ServerHasUuid(v, e.serverId, u) {
      HasUuidLocal(db, scope, session, e.serverId, u);
      assert e in db.endpoints;
    }
  }

  /** A card of this key is this message's, if one of that key is. */
  lemma CardIsOwn(db: Db, scope: Scope, session: nat, e: Endpoint)
    requires Keyed(db) && e in db.endpoints && e.id in MyCards(db, scope, session)
    ensures e.serverId in Mine(db, scope, session)
  {
    MyCardsMeans(db, scope, session, e.id);
    var f :| f in db.endpoints && f.id == e.id && f.serverId in Mine(db, scope, session);
    var i :| 0 <= i < |db.endpoints| && db.endpoints[i] == e;
    var j :| 0 <= j < |db.endpoints| && db.endpoints[j] == f;
  }

  lemma NameLocal(db: Db, scope: Scope, session: nat, card: Id)
    requires Keyed(db) && card in MyCards(db, scope, session)
    ensures EndpointName(View(db, scope, session), card) == EndpointName(db, card)
    ensures Filter(View(db, scope, session).endpoints, WithId(card)) == Filter(db.endpoints, WithId(card))
  {
    ViewParts(db, scope, session);
    forall e | e in db.endpoints && e.id == card ensures e.serverId in Mine(db, scope, session) {
      CardIsOwn(db, scope, session, e);
    }
    FirstWithin(db.endpoints, OwnEndpoints(Mine(db, scope, session)), WithId(card));
  }

  // -- one lemma per kind of read ---------------------------------------------------------------------

  lemma ServerReadsLocal(db: Db, scope: Scope, session: nat, op: Op, id: Id)
    requires Local(db, scope, session, op)
    requires op.SelectServerByUuid? || op.SelectServerByHostname? || op.SelectServers? || op.UpdateServers? || op.DeleteServer?
    ensures Reads(View(db, scope, session), op, id) == Reads(db, op, id)
  {
    ViewParts(db, scope, session);
    var own := OwnServers(scope, session);
    match op
    case SelectServerByUuid(u) =>
      FirstWithin(db.servers, own, Matching(None, Some(u)));
      var first := First(db.servers, Matching(None, Some(u)));
      if first.Some? {
        HasUuidLocal(db, scope, session, first.value.id, u);
        ViewOfLocal(db, scope, session, first.value.id);
      }
    case SelectServerByHostname(h) => FirstWithin(db.servers, own, Matching(Some(h), None));
    case SelectServers(h, u) =>
      FirstWithin(db.servers, own, MatchingAny(h, u));
      var rows := Filter(db.servers, MatchingAny(h, u));
      forall s | s in rows ensures DoomedRow(View(db, scope, session))(s) == DoomedRow(db)(s) {
        MatchInScope(s, scope, session, h, u);
        MineMeans(db, scope, session, s.id);
        DoomedLocal(db, scope, session, s);
      }
      hide View, Mine, Filter;
      MapEqual(rows, DoomedRow(View(db, scope, session)), DoomedRow(db));
    case UpdateServers(h, u, _) => FirstWithin(db.servers, own, Matching(h, u));
    case DeleteServer(s) => FirstWithin(db.servers, own, IsServer(s));
  }

  lemma CardReadsLocal(db: Db, scope: Scope, session: nat, op: Op, id: Id)
    requires Keyed(db) && Local(db, scope, session, op)
    requires op.SelectEndpointByName? || op.SelectEndpointByMac? || op.UpdateEndpoint? || op.SweepEndpoints? || op.DeleteRail?
    ensures Reads(View(db, scope, session), op, id) == Reads(db, op, id)
  {
    ViewParts(db, scope, session);
    var v := View(db, scope, session);
    var own := OwnEndpoints(Mine(db, scope, session));
    hide View, Mine, MyCards, Filter, First;
    match op
    case SelectEndpointByName(s, name) => FirstWithin(db.endpoints, own, Named(s, name));
    case SelectEndpointByMac(s, mac) => FirstWithin(db.endpoints, own, WithMac(s, mac));
    case UpdateEndpoint(e, _, _) => NameLocal(db, scope, session, e);
    case SweepEndpoints(u) => SweptLocal(db, scope, session, u);
    case DeleteRail(r) => FirstWithin(db.rails, OwnRails(Mine(db, scope, session)), IsRail(r));
  }

  lemma SweptLocal(db: Db, scope: Scope, session: nat, u: string)
    requires u in scope.uuids
    ensures Filter(View(db, scope, session).endpoints, SweptOn(View(db, scope, session), u)) == Filter(db.endpoints, SweptOn(db, u))
  {
    ViewParts(db, scope, session);
    var v := View(db, scope, session);
    var own := OwnEndpoints(Mine(db, scope, session));
    hide View, Mine, MyCards;
    forall e | e in db.endpoints && SweptOn(db, u)(e) ensures own(e) { HasUuidLocal(db, scope, session, e.serverId, u); }
    FilterWithin(db.endpoints, own, SweptOn(db, u));
    forall e | e in v.endpoints ensures SweptOn(v, u)(e) == SweptOn(db, u)(e) { SweptSame(db, scope, session, u, e); }
    FilterSame(v.endpoints, SweptOn(v, u), SweptOn(db, u));
  }

  lemma SweptSame(db: Db, scope: Scope, session: nat, u: string, e: Endpoint)
    requires u in scope.uuids && e in View(db, scope, session).endpoints
    ensures SweptOn(View(db, scope, session), u)(e) == SweptOn(db, u)(e)
    ensures KeptOnSweep(View(db, scope, session), u)(e) == KeptOnSweep(db, u)(e)
  {
    ViewParts(db, scope, session);
    MyCardsMeans(db, scope, session, e.id);
    HasUuidLocal(db, scope, session, e.serverId, u);
    HasIpsLocal(db, scope, session, e.id);
    hide View, Mine, MyCards, HasIps, ServerHasUuid;
  }

  lemma AttachedLocal(db: Db, scope: Scope, session: nat, ip: Ip, addr: string, u: string)
    requires u in scope.uuids
    ensures Attached(View(db, scope, session), ip, addr, u) == Attached(db, ip, addr, u)
    ensures Attached(db, ip, addr, u) ==> ip.endpointId in MyCards(db, scope, session)
  {
    OnUuidLocal(db, scope, session, ip.endpointId, u);
    hide View, MyCards, EndpointOnUuid;
  }

  lemma AttachedRowsLocal(db: Db, scope: Scope, session: nat, addr: string, u: string)
    requires u in scope.uuids
    ensures
      var v := View(db, scope, session);
      && First(v.ips, AttachedTo(v, addr, u)) == First(db.ips, AttachedTo(db, addr, u))
      && Filter(v.ips, AttachedTo(v, addr, u)) == Filter(db.ips, AttachedTo(db, addr, u))
  {
    ViewParts(db, scope, session);
    var v := View(db, scope, session);
    var own := OwnIps(MyCards(db, scope, session));
    hide View, Mine, MyCards, Attached;
    forall ip | ip in db.ips ensures Attached(v, ip, addr, u) == Attached(db, ip, addr, u) && (Attached(db, ip, addr, u) ==> own(ip)) {
      AttachedLocal(db, scope, session, ip, addr, u);
    }
    FirstWithin(db.ips, own, AttachedTo(db, addr, u));
    FilterSame(v.ips, AttachedTo(v, addr, u), AttachedTo(db, addr, u));
  }

  lemma IpReadsLocal(db: Db, scope: Scope, session: nat, op: Op, id: Id)
    requires Keyed(db) && Local(db, scope, session, op)
    requires op.SelectAttachedIp? || op.SelectIp? || op.DeleteAttachedIps?
    ensures Reads(View(db, scope, session), op, id) == Reads(db, op, id)
  {
    ViewParts(db, scope, session);
    var v := View(db, scope, session);
    hide View, Mine, MyCards, Attached, EndpointName, Filter, First;
    match op
    case SelectAttachedIp(addr, u) =>
      AttachedRowsLocal(db, scope, session, addr, u);
      var first := First(db.ips, AttachedTo(db, addr, u));
      if first.Some? {
        AttachedLocal(db, scope, session, first.value, addr, u);
        NameLocal(db, scope, session, first.value.endpointId);
      }
    case SelectIp(addr, e, prefix) =>
      FirstWithin(db.ips, OwnIps(MyCards(db, scope, session)), SameIp(addr, e, prefix));
      NameLocal(db, scope, session, e);
    case DeleteAttachedIps(addr, u) => AttachedRowsLocal(db, scope, session, addr, u);
  }

  /** What a message reads depends only on its own rows. */
  lemma ReadsLocal(db: Db, scope: Scope, session: nat, op: Op, id: Id)
    requires Keyed(db) && Local(db, scope, session, op)
    ensures Reads(View(db, scope, session), op, id) == Reads(db, op, id)
    ensures Accepts(View(db, scope, session), op) == Accepts(db, op)
  {
    hide Filter, First, Map, Mine, MyCards, Keyed, View, ViewOf, DoomedRow, EndpointName;
    match op
    case SelectAttachedIp(_, _) => IpReadsLocal(db, scope, session, op, id);
    case SelectIp(_, _, _) => IpReadsLocal(db, scope, session, op, id);
    case DeleteAttachedIps(_, _) => IpReadsLocal(db, scope, session, op, id);
    case SelectEndpointByName(_, _) => CardReadsLocal(db, scope, session, op, id);
    case SelectEndpointByMac(_, _) => CardReadsLocal(db, scope, session, op, id);
    case UpdateEndpoint(_, _, _) => CardReadsLocal(db, scope, session, op, id);
    case SweepEndpoints(_) => CardReadsLocal(db, scope, session, op, id);
    case DeleteRail(_) => CardReadsLocal(db, scope, session, op, id);
    case SelectServerByUuid(_) => ServerReadsLocal(db, scope, session, op, id);
    case SelectServerByHostname(_) => ServerReadsLocal(db, scope, session, op, id);
    case SelectServers(_, _) => ServerReadsLocal(db, scope, session, op, id);
    case UpdateServers(_, _, _) => ServerReadsLocal(db, scope, session, op, id);
    case DeleteServer(_) => ServerReadsLocal(db, scope, session, op, id);
    case _ =>
  }

  // -- writes act on the view -----------------------------------------------------------------------------

  /** What a request makes of a message's own rows. */
  ghost function Effect(v: Db, scope: Scope, session: nat, op: Op, id: Id): Db {
    if op.DeleteServer? then View(Commit(v, op, id), scope, session) else Commit(v, op, id)
  }

  lemma UpdateLocal(db: Db, scope: Scope, session: nat, h: Option<string>, u: Option<string>, m: Cols, id: Id)
    requires Names(scope, h, u) && NamesStay(m, scope) && Accepted(db, m)
    ensures
      var op := UpdateServers(h, u, m);
      View(Commit(db, op, id), scope, session) == Commit(View(db, scope, session), op, id)
  {
    var f := Mutated(h, u, m);
    var own := OwnServers(scope, session);
    forall s ensures own(f(s)) == own(s) && f(s).id == s.id { UpdatedInScope(s, scope, session, h, u, m); }
    FilterMap(db.servers, f, own);
    var before := Filter(db.servers, own);
    SameIds(before, f);
    ViewParts(db, scope, session);
  }

  lemma SameIds(rows: seq<Server>, f: Server -> Server)
    requires forall s :: f(s).id == s.id
    ensures (set s: Server | s in Map(rows, f) :: s.id) == (set s: Server | s in rows :: s.id)
  {
    forall s | s in rows ensures exists t :: t in Map(rows, f) && t.id == s.id {
      var i :| 0 <= i < |rows| && rows[i] == s;
      assert Map(rows, f)[i].id == s.id;
    }
    forall t | t in Map(rows, f) ensures exists s :: s in rows && s.id == t.id {
      var i :| 0 <= i < |rows| && Map(rows, f)[i] == t;
      assert rows[i] in rows;
    }
  }

  lemma InsertServerLocal(db: Db, scope: Scope, session: nat, cols: Cols, n: nat)
    requires Unborn(db, session, n)
    ensures
      var op := InsertServer(cols);
      View(Commit(db, op, Id(session, n)), scope, session) == Commit(View(db, scope, session), op, Id(session, n))
  {
    var row := Server(Id(session, n), cols);
    var mine := Mine(db, scope, session);
    ViewParts(db, scope, session);
    hide Filter;
    FilterSnoc(db.servers, row, OwnServers(scope, session));
    var servers := Filter(db.servers, OwnServers(scope, session)) + [row];
    var mine' := set s | s in servers :: s.id;
    assert mine' == mine + {row.id};
    hide Filter, Mine;
    FilterSame(db.rails, OwnRails(mine'), OwnRails(mine));
    FilterSame(db.endpoints, OwnEndpoints(mine'), OwnEndpoints(mine));
  }

  /** Two stores whose own rows agree look the same. */
  lemma SameView(a: Db, b: Db, scope: Scope, session: nat, mine: set<Id>, cards: set<Id>)
    requires Filter(a.servers, OwnServers(scope, session)) == Filter(b.servers, OwnServers(scope, session))
    requires mine == set s: Server | s in Filter(a.servers, OwnServers(scope, session)) :: s.id
    requires Filter(a.rails, OwnRails(mine)) == Filter(b.rails, OwnRails(mine))
    requires Filter(a.endpoints, OwnEndpoints(mine)) == Filter(b.endpoints, OwnEndpoints(mine))
    requires cards == set e: Endpoint | e in Filter(a.endpoints, OwnEndpoints(mine)) :: e.id
    requires Filter(a.ips, OwnIps(cards)) == Filter(b.ips, OwnIps(cards)) && a.catalog == b.catalog
    ensures View(a, scope, session) == View(b, scope, session)
  {
    hide Filter;
  }

  lemma ServersShrink(db: Db, scope: Scope, session: nat, server: Id)
    ensures
      var own, v := OwnServers(scope, session), View(db, scope, session);
      && Filter(Filter(db.servers, NotServer(server)), own) == Filter(Filter(v.servers, NotServer(server)), own)
      && forall s :: s in Filter(Filter(db.servers, NotServer(server)), own) ==> s.id in Mine(db, scope, session)
  {
    var own, v := OwnServers(scope, session), View(db, scope, session);
    ViewParts(db, scope, session);
    FilterSwap(db.servers, NotServer(server), own);
    FilterAll(Filter(v.servers, NotServer(server)), own);
    forall s | s in Filter(Filter(db.servers, NotServer(server)), own) ensures s.id in Mine(db, scope, session) {
      MineMeans(db, scope, session, s.id);
    }
  }

  lemma DeleteServerLocal(db: Db, scope: Scope, session: nat, server: Id, id: Id)
    ensures
      var op := DeleteServer(server);
      View(Commit(db, op, id), scope, session) == View(Commit(View(db, scope, session), op, id), scope, session)
  {
    var v := View(db, scope, session);
    ServersShrink(db, scope, session, server);
    ViewParts(db, scope, session);
    var left := Filter(Filter(db.servers, NotServer(server)), OwnServers(scope, session));
    var mine, mine' := Mine(db, scope, session), set s: Server | s in left :: s.id;
    hide Filter, View, Mine, MyCards;
    FilterWithin(db.rails, OwnRails(mine), OwnRails(mine'));
    FilterWithin(db.endpoints, OwnEndpoints(mine), OwnEndpoints(mine'));
    var cards, cards' := MyCards(db, scope, session), set e: Endpoint | e in Filter(db.endpoints, OwnEndpoints(mine')) :: e.id;
    forall k | k in cards' ensures k in cards { MyCardsMeans(db, scope, session, k); }
    FilterWithin(db.ips, OwnIps(cards), OwnIps(cards'));
    SameView(Commit(db, DeleteServer(server), id), Commit(v, DeleteServer(server), id), scope, session, mine', cards');
  }

  lemma DeleteRailLocal(db: Db, scope: Scope, session: nat, rail: Id, id: Id)
    ensures
      var op := DeleteRail(rail);
      View(Commit(db, op, id), scope, session) == Commit(View(db, scope, session), op, id)
  {
    ViewParts(db, scope, session);
    FilterSwap(db.rails, NotRail(rail), OwnRails(Mine(db, scope, session)));
    hide Filter;
  }

  ghost function IdsOf(rows: seq<Endpoint>): set<Id> { set e | e in rows :: e.id }

  lemma IdsSnoc(rows: seq<Endpoint>, row: Endpoint)
    ensures IdsOf(rows + [row]) == IdsOf(rows) + {row.id}
  {
  }

  /** With the same servers and rails, a view changes only in cards and addresses. */
  lemma CardsOnly(db: Db, db': Db, scope: Scope, session: nat, endpoints: seq<Endpoint>, ips: seq<Ip>)
    requires db'.servers == db.servers && db'.rails == db.rails && db'.catalog == db.catalog
    requires Filter(db'.endpoints, OwnEndpoints(Mine(db, scope, session))) == endpoints
    requires Filter(db'.ips, OwnIps(IdsOf(endpoints))) == ips
    ensures View(db', scope, session) == View(db, scope, session).(endpoints := endpoints, ips := ips)
  {
    hide Filter;
  }

  lemma MyCardsAre(db: Db, scope: Scope, session: nat)
    ensures MyCards(db, scope, session) == IdsOf(View(db, scope, session).endpoints)
  {
  }

  lemma InsertEndpointLocal(db: Db, scope: Scope, session: nat, op: Op, n: nat)
    requires Unborn(db, session, n) && op.InsertEndpoint? && op.serverId in Mine(db, scope, session)
    ensures View(Commit(db, op, Id(session, n)), scope, session) == Commit(View(db, scope, session), op, Id(session, n))
  {
    var v, id := View(db, scope, session), Id(session, n);
    var row := Endpoint(id, op.serverId, op.name, op.mac, op.notes);
    assert Commit(db, op, id) == db.(endpoints := db.endpoints + [row]) && Commit(v, op, id) == v.(endpoints := v.endpoints + [row]);
    assert forall ip :: ip in db.ips ==> ip.endpointId != row.id;
    hide Commit, Unborn;
    NewCardView(db, scope, session, row);
  }

  lemma NewCardView(db: Db, scope: Scope, session: nat, row: Endpoint)
    requires row.serverId in Mine(db, scope, session) && forall ip :: ip in db.ips ==> ip.endpointId != row.id
    ensures
      var v := View(db, scope, session);
      View(db.(endpoints := db.endpoints + [row]), scope, session) == v.(endpoints := v.endpoints + [row])
  {
    var v := View(db, scope, session);
    ViewParts(db, scope, session);
    MyCardsAre(db, scope, session);
    hide Filter, Mine, View, MyCards;
    FilterSnoc(db.endpoints, row, OwnEndpoints(Mine(db, scope, session)));
    IdsSnoc(v.endpoints, row);
    var cards := IdsOf(v.endpoints + [row]);
    hide IdsOf;
    FilterSame(db.ips, OwnIps(cards), OwnIps(MyCards(db, scope, session)));
    CardsOnly(db, db.(endpoints := db.endpoints + [row]), scope, session, v.endpoints + [row], v.ips);
  }

  lemma UpdateEndpointLocal(db: Db, scope: Scope, session: nat, op: Op, id: Id)
    requires op.UpdateEndpoint?
    ensures View(Commit(db, op, id), scope, session) == Commit(View(db, scope, session), op, id)
  {
    var v := View(db, scope, session);
    var f := Filled(op.endpoint, op.newMac, op.newNotes);
    assert Commit(db, op, id) == db.(endpoints := Map(db.endpoints, f)) && Commit(v, op, id) == v.(endpoints := Map(v.endpoints, f));
    hide Commit;
    MappedCardView(db, scope, session, f);
  }

  lemma MappedCardView(db: Db, scope: Scope, session: nat, f: Endpoint -> Endpoint)
    requires forall e :: f(e).id == e.id && f(e).serverId == e.serverId
    ensures
      var v := View(db, scope, session);
      View(db.(endpoints := Map(db.endpoints, f)), scope, session) == v.(endpoints := Map(v.endpoints, f))
  {
    var v := View(db, scope, session);
    ViewParts(db, scope, session);
    MyCardsAre(db, scope, session);
    hide Filter, Mine, View, MyCards;
    FilterMap(db.endpoints, f, OwnEndpoints(Mine(db, scope, session)));
    SameCardIds(v.endpoints, f);
    hide IdsOf, Map;
    CardsOnly(db, db.(endpoints := Map(db.endpoints, f)), scope, session, Map(v.endpoints, f), v.ips);
  }

  lemma SameCardIds(rows: seq<Endpoint>, f: Endpoint -> Endpoint)
    requires forall e :: f(e).id == e.id
    ensures IdsOf(Map(rows, f)) == IdsOf(rows)
  {
    forall e | e in rows ensures exists x :: x in Map(rows, f) && x.id == e.id {
      var i :| 0 <= i < |rows| && rows[i] == e;
      assert Map(rows, f)[i].id == e.id;
    }
    forall x | x in Map(rows, f) ensures exists e :: e in rows && e.id == x.id {
      var i :| 0 <= i < |rows| && Map(rows, f)[i] == x;
      assert rows[i] in rows;
    }
  }

  /** The swept view's cards, both ways. */
  lemma SweptCards(db: Db, scope: Scope, session: nat, u: string)
    requires u in scope.uuids
    ensures
      var v := View(db, scope, session);
      var left := Filter(v.endpoints, KeptOnSweep(v, u));
      && left == Filter(v.endpoints, KeptOnSweep(db, u))
      && left == Filter(Filter(db.endpoints, KeptOnSweep(db, u)), OwnEndpoints(Mine(db, scope, session)))
  {
    var v := View(db, scope, session);
    ViewParts(db, scope, session);
    hide View, Mine, MyCards, KeptOnSweep, Filter;
    FilterSwap(db.endpoints, KeptOnSweep(db, u), OwnEndpoints(Mine(db, scope, session)));
    forall e | e in v.endpoints ensures KeptOnSweep(v, u)(e) == KeptOnSweep(db, u)(e) { SweptSame(db, scope, session, u, e); }
    FilterSame(v.endpoints, KeptOnSweep(v, u), KeptOnSweep(db, u));
  }

  /** A sweep takes no card that holds an address, so it takes no address out of view. */
  lemma SweptIps(db: Db, scope: Scope, session: nat, u: string)
    ensures
      var v := View(db, scope, session);
      Filter(db.ips, OwnIps(IdsOf(Filter(v.endpoints, KeptOnSweep(db, u))))) == v.ips
  {
    var v := View(db, scope, session);
    var cards, cards' := MyCards(db, scope, session), IdsOf(Filter(v.endpoints, KeptOnSweep(db, u)));
    ViewParts(db, scope, session);
    hide View, Mine, MyCards, KeptOnSweep, Filter, IdsOf;
    forall ip | ip in db.ips ensures OwnIps(cards')(ip) == OwnIps(cards)(ip) { SweptHoldsNone(db, scope, session, u, ip); }
    FilterSame(db.ips, OwnIps(cards'), OwnIps(cards));
  }

  lemma SweepLocal(db: Db, scope: Scope, session: nat, u: string, id: Id)
    requires u in scope.uuids
    ensures View(Commit(db, SweepEndpoints(u), id), scope, session) == Commit(View(db, scope, session), SweepEndpoints(u), id)
  {
    var v := View(db, scope, session);
    var left, swept := Filter(v.endpoints, KeptOnSweep(v, u)), db.(endpoints := Filter(db.endpoints, KeptOnSweep(db, u)));
    assert Commit(db, SweepEndpoints(u), id) == swept && Commit(v, SweepEndpoints(u), id) == v.(endpoints := left);
    hide *;
    SweptCards(db, scope, session, u);
    SweptIps(db, scope, session, u);
    CardsOnly(db, swept, scope, session, left, v.ips);
  }

  /** A card that holds an address survives the sweep. */
  lemma SweptHoldsNone(db: Db, scope: Scope, session: nat, u: string, ip: Ip)
    requires ip in db.ips
    ensures
      ip.endpointId in MyCards(db, scope, session) <==>
      ip.endpointId in IdsOf(Filter(View(db, scope, session).endpoints, KeptOnSweep(db, u)))
  {
    assert HasIps(db, ip.endpointId);
    hide Filter, HasIps, ServerHasUuid;
  }

  lemma InsertIpLocal(db: Db, scope: Scope, session: nat, op: Op, id: Id)
    requires op.InsertIp? && op.endpointId in MyCards(db, scope, session)
    ensures View(Commit(db, op, id), scope, session) == Commit(View(db, scope, session), op, id)
  {
    var v := View(db, scope, session);
    var row := Ip(id, op.endpointId, op.addr, op.kind, op.prefix);
    assert Commit(db, op, id) == db.(ips := db.ips + [row]) && Commit(v, op, id) == v.(ips := v.ips + [row]);
    hide Commit;
    ViewParts(db, scope, session);
    MyCardsAre(db, scope, session);
    hide Filter, Mine, View, MyCards, IdsOf;
    FilterSnoc(db.ips, row, OwnIps(MyCards(db, scope, session)));
    CardsOnly(db, db.(ips := db.ips + [row]), scope, session, v.endpoints, v.ips + [row]);
  }

  lemma DetachedIps(db: Db, scope: Scope, session: nat, addr: string, u: string)
    requires u in scope.uuids
    ensures
      var v := View(db, scope, session);
      Filter(Filter(db.ips, NotAttachedTo(db, addr, u)), OwnIps(MyCards(db, scope, session))) == Filter(v.ips, NotAttachedTo(v, addr, u))
  {
    var v := View(db, scope, session);
    ViewParts(db, scope, session);
    hide Filter, Attached, Mine, View, MyCards;
    FilterSwap(db.ips, NotAttachedTo(db, addr, u), OwnIps(MyCards(db, scope, session)));
    forall ip | ip in v.ips ensures Attached(v, ip, addr, u) == Attached(db, ip, addr, u) { AttachedLocal(db, scope, session, ip, addr, u); }
    FilterSame(v.ips, NotAttachedTo(v, addr, u), NotAttachedTo(db, addr, u));
  }

  lemma DeleteIpsLocal(db: Db, scope: Scope, session: nat, addr: string, u: string, id: Id)
    requires u in scope.uuids
    ensures View(Commit(db, DeleteAttachedIps(addr, u), id), scope, session) == Commit(View(db, scope, session), DeleteAttachedIps(addr, u), id)
  {
    var v := View(db, scope, session);
    var left, less := Filter(v.ips, NotAttachedTo(v, addr, u)), db.(ips := Filter(db.ips, NotAttachedTo(db, addr, u)));
    assert Commit(db, DeleteAttachedIps(addr, u), id) == less && Commit(v, DeleteAttachedIps(addr, u), id) == v.(ips := left);
    hide *;
    ViewParts(db, scope, session);
    MyCardsAre(db, scope, session);
    DetachedIps(db, scope, session, addr, u);
    CardsOnly(db, less, scope, session, v.endpoints, left);
  }

  /** What a message writes acts on its own rows as it would if there were no others. */
  lemma CommitLocal(db: Db, scope: Scope, session: nat, op: Op, n: nat)
    requires Keyed(db) && Unborn(db, session, n) && Local(db, scope, session, op)
    ensures View(Commit(db, op, Id(session, n)), scope, session) == Effect(View(db, scope, session), scope, session, op, Id(session, n))
  {
    hide Filter, First, Map, Mine, MyCards, Keyed, Unborn, View;
    var id := Id(session, n);
    match op
    case InsertServer(cols) => InsertServerLocal(db, scope, session, cols, n);
    case UpdateServers(h, u, m) => if Accepted(db, m) { UpdateLocal(db, scope, session, h, u, m, id); }
    case DeleteServer(s) => DeleteServerLocal(db, scope, session, s, id);
    case DeleteRail(r) => DeleteRailLocal(db, scope, session, r, id);
    case InsertEndpoint(_, _, _, _) => InsertEndpointLocal(db, scope, session, op, n);
    case UpdateEndpoint(_, _, _) => UpdateEndpointLocal(db, scope, session, op, id);
    case SweepEndpoints(u) => SweepLocal(db, scope, session, u, id);
    case InsertIp(_, _, _, _) => InsertIpLocal(db, scope, session, op, id);
    case DeleteAttachedIps(addr, u) => DeleteIpsLocal(db, scope, session, addr, u, id);
    case _ =>
  }

  // -- what stays a message's own ---------------------------------------------------------------------------

  lemma MappedStays(db: Db, scope: Scope, session: nat, h: Option<string>, u: Option<string>, m: Cols, id: Id)
    requires Names(scope, h, u) && NamesStay(m, scope) && id in Mine(db, scope, session)
    ensures id in Mine(db.(servers := Map(db.servers, Mutated(h, u, m))), scope, session)
  {
    hide Mine;
    var rows := Map(db.servers, Mutated(h, u, m));
    MineMeans(db, scope, session, id);
    MineMeans(db.(servers := rows), scope, session, id);
    var s :| s in db.servers && s.id == id && InScope(s, scope, session);
    var i :| 0 <= i < |db.servers| && db.servers[i] == s;
    assert rows[i] == Mutated(h, u, m)(s) && rows[i] in rows;
    UpdatedInScope(s, scope, session, h, u, m);
  }

  lemma RowStays(db: Db, op: Op, id: Id, s: Server)
    requires s in db.servers && !op.UpdateServers? && op != DeleteServer(s.id)
    ensures s in Commit(db, op, id).servers
  {
  }

  /** An own server stays own until it is deleted. */
  lemma MineKept(db: Db, scope: Scope, session: nat, op: Op, id: Id, server: Id)
    requires Local(db, scope, session, op) && server in Mine(db, scope, session) && op != DeleteServer(server)
    ensures server in Mine(Commit(db, op, id), scope, session)
  {
    hide InScope;
    if op.UpdateServers? {
      if Accepted(db, op.mutation) { MappedStays(db, scope, session, op.whereHostname, op.whereUuid, op.mutation, server); }
    } else {
      MineMeans(db, scope, session, server);
      MineMeans(Commit(db, op, id), scope, session, server);
      hide Mine, Local, Commit;
      var s :| s in db.servers && s.id == server && InScope(s, scope, session);
      RowStays(db, op, id, s);
    }
  }

  /** An own card stays own until it is swept or its server deleted. */
  lemma MyCardsKept(db: Db, scope: Scope, session: nat, op: Op, id: Id, card: Id)
    requires Local(db, scope, session, op) && card in MyCards(db, scope, session) && !op.DeleteServer? && !op.SweepEndpoints?
    ensures card in MyCards(Commit(db, op, id), scope, session)
  {
    var db' := Commit(db, op, id);
    MyCardsMeans(db, scope, session, card);
    MyCardsMeans(db', scope, session, card);
    hide Mine, MyCards;
    var e :| e in db.endpoints && e.id == card && e.serverId in Mine(db, scope, session);
    MineKept(db, scope, session, op, id, e.serverId);
    hide Local;
    var i :| 0 <= i < |db.endpoints| && db.endpoints[i] == e;
    assert db'.endpoints[i] in db'.endpoints && db'.endpoints[i].id == card && db'.endpoints[i].serverId == e.serverId;
  }

  /** A request that landed is still local: it may be sent again. */
  lemma LocalKept(db: Db, scope: Scope, session: nat, op: Op, id: Id)
    requires Local(db, scope, session, op)
    ensures Local(Commit(db, op, id), scope, session, op)
  {
    hide Mine, MyCards, InScope;
    match op
    case SelectEndpointByName(s, _) => MineKept(db, scope, session, op, id, s);
    case SelectEndpointByMac(s, _) => MineKept(db, scope, session, op, id, s);
    case InsertEndpoint(s, _, _, _) => MineKept(db, scope, session, op, id, s);
    case UpdateEndpoint(e, _, _) => MyCardsKept(db, scope, session, op, id, e);
    case SelectIp(_, e, _) => MyCardsKept(db, scope, session, op, id, e);
    case InsertIp(e, _, _, _) => MyCardsKept(db, scope, session, op, id, e);
    case DeleteRail(r) => SameServersMine(db, Commit(db, op, id), scope, session);
    case _ =>
  }

  lemma SameServersMine(a: Db, b: Db, scope: Scope, session: nat)
    requires a.servers == b.servers
    ensures Mine(a, scope, session) == Mine(b, scope, session)
  {
  }
}
