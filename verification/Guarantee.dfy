/** The other half: what a message asks for leaves the rows of messages with other names alone. */
module Guarantee {
  import opened Basics
  import opened Cmdb
  import opened Retry
  import opened RetryProofs
  import opened StoreFacts
  import opened Locality

  /** Two messages name different servers, and are given keys of different sessions. */
  ghost predicate Disjoint(a: Party, b: Party) {
    a.session != b.session && a.scope.hostnames !! b.scope.hostnames && a.scope.uuids !! b.scope.uuids
  }

  predicate Belongs(s: Server, p: Party) { InScope(s, p.scope, p.session) }

  /** No row carries a name of each. */
  ghost predicate NoneShared(db: Db, a: Party, b: Party) {
    forall s :: s in db.servers ==> !(Belongs(s, a) && Belongs(s, b))
  }

  ghost predicate Apart(db: Db, a: Party, b: Party) { Disjoint(a, b) && NoneShared(db, a, b) }

  function ServersOf(db: Db, p: Party): set<Id> { Mine(db, p.scope, p.session) }
  function CardsOf(db: Db, p: Party): set<Id> { MyCards(db, p.scope, p.session) }
  function ViewFor(db: Db, p: Party): Db { View(db, p.scope, p.session) }
  ghost predicate LocalTo(db: Db, p: Party, op: Op) { Local(db, p.scope, p.session, op) }

  // -- one row per key -----------------------------------------------------------------------------

  lemma OneServer(db: Db, s: Server, t: Server)
    requires Keyed(db) && s in db.servers && t in db.servers && s.id == t.id
    ensures s == t
  {
    var i :| 0 <= i < |db.servers| && db.servers[i] == s;
    var j :| 0 <= j < |db.servers| && db.servers[j] == t;
  }

  lemma OneRail(db: Db, r: Rail, t: Rail)
    requires Keyed(db) && r in db.rails && t in db.rails && r.id == t.id
    ensures r == t
  {
    var i :| 0 <= i < |db.rails| && db.rails[i] == r;
    var j :| 0 <= j < |db.rails| && db.rails[j] == t;
  }

  lemma ServersApart(db: Db, a: Party, b: Party, id: Id)
    requires Keyed(db) && Apart(db, a, b) && id in ServersOf(db, a)
    ensures id !in ServersOf(db, b)
  {
    MineMeans(db, a.scope, a.session, id);
    MineMeans(db, b.scope, b.session, id);
    hide Mine, InScope;
    var s :| s in db.servers && s.id == id && Belongs(s, a);
    forall t | t in db.servers && t.id == id ensures t == s { OneServer(db, t, s); }
  }

  lemma OneCard(db: Db, e: Endpoint, f: Endpoint)
    requires Keyed(db) && e in db.endpoints && f in db.endpoints && e.id == f.id
    ensures e == f
  {
    var i :| 0 <= i < |db.endpoints| && db.endpoints[i] == e;
    var j :| 0 <= j < |db.endpoints| && db.endpoints[j] == f;
  }

  lemma CardsApart(db: Db, a: Party, b: Party, id: Id)
    requires Keyed(db) && Apart(db, a, b) && id in CardsOf(db, a)
    ensures id !in CardsOf(db, b)
  {
    MyCardsMeans(db, a.scope, a.session, id);
    MyCardsMeans(db, b.scope, b.session, id);
    hide Mine, MyCards, InScope;
    var e :| e in db.endpoints && e.id == id && e.serverId in ServersOf(db, a);
    ServersApart(db, a, b, e.serverId);
    hide Apart;
    forall f | f in db.endpoints && f.id == id ensures f == e { OneCard(db, f, e); }
  }

  // -- one lemma per kind of write ------------------------------------------------------------------

  /** Rows of `b` in the same places: the same view. */
  lemma SameViewFor(db: Db, db': Db, b: Party)
    requires Filter(db'.servers, OwnServers(b.scope, b.session)) == Filter(db.servers, OwnServers(b.scope, b.session))
    requires Filter(db'.rails, OwnRails(ServersOf(db, b))) == Filter(db.rails, OwnRails(ServersOf(db, b)))
    requires Filter(db'.endpoints, OwnEndpoints(ServersOf(db, b))) == Filter(db.endpoints, OwnEndpoints(ServersOf(db, b)))
    requires Filter(db'.ips, OwnIps(CardsOf(db, b))) == Filter(db.ips, OwnIps(CardsOf(db, b))) && db'.catalog == db.catalog
    ensures ViewFor(db', b) == ViewFor(db, b)
  {
    ViewParts(db, b.scope, b.session);
    MyCardsAre(db, b.scope, b.session);
    assert ServersOf(db, b) == set s: Server | s in Filter(db.servers, OwnServers(b.scope, b.session)) :: s.id;
    assert CardsOf(db, b) == set e: Endpoint | e in Filter(db.endpoints, OwnEndpoints(ServersOf(db, b))) :: e.id;
    hide Filter, Mine, MyCards, View;
    SameView(db, db', b.scope, b.session, ServersOf(db, b), CardsOf(db, b));
  }

  lemma UpdateForeign(db: Db, a: Party, b: Party, h: Option<string>, u: Option<string>, m: Cols)
    requires Apart(db, a, b) && Names(a.scope, h, u) && NamesStay(m, a.scope)
    ensures
      var servers := Map(db.servers, Mutated(h, u, m));
      && ViewFor(db.(servers := servers), b) == ViewFor(db, b)
      && (forall s :: s in db.servers && Belongs(s, b) ==> Mutated(h, u, m)(s) == s)
  {
    var f, own := Mutated(h, u, m), OwnServers(b.scope, b.session);
    forall s | s in db.servers ensures own(f(s)) == own(s) && (own(s) ==> f(s) == s) {
      MatchInScope(s, a.scope, a.session, h, u);
    }
    FilterMap(db.servers, f, own);
    MapSame(Filter(db.servers, own), f);
    hide Filter, Map;
    SameViewFor(db, db.(servers := Map(db.servers, f)), b);
  }

  lemma InsertServerForeign(db: Db, a: Party, b: Party, row: Server)
    requires Apart(db, a, b) && NamedIn(row.cols, a.scope) && row.id.session == a.session
    ensures ViewFor(db.(servers := db.servers + [row]), b) == ViewFor(db, b) && !Belongs(row, b)
  {
    FilterSnoc(db.servers, row, OwnServers(b.scope, b.session));
    assert !Belongs(row, b);
    hide Filter;
    SameViewFor(db, db.(servers := db.servers + [row]), b);
  }

  lemma DeleteServerForeign(db: Db, a: Party, b: Party, id: Id)
    requires Apart(db, a, b) && OwnServer(db, a.scope, a.session, id)
    ensures ViewFor(db.(servers := Filter(db.servers, NotServer(id))), b) == ViewFor(db, b)
  {
    hide Filter, InScope;
    FilterWithin(db.servers, NotServer(id), OwnServers(b.scope, b.session));
    SameViewFor(db, db.(servers := Filter(db.servers, NotServer(id))), b);
  }

  lemma DeleteRailForeign(db: Db, a: Party, b: Party, id: Id)
    requires Keyed(db) && Apart(db, a, b) && OwnRail(db, a.scope, a.session, id)
    ensures ViewFor(db.(rails := Filter(db.rails, NotRail(id))), b) == ViewFor(db, b)
  {
    hide Filter, Mine;
    forall r | r in db.rails && OwnRails(ServersOf(db, b))(r) ensures NotRail(id)(r) {
      if r.id == id { ServersApart(db, a, b, r.serverId); }
    }
    FilterWithin(db.rails, NotRail(id), OwnRails(ServersOf(db, b)));
    SameViewFor(db, db.(rails := Filter(db.rails, NotRail(id))), b);
  }

  lemma InsertEndpointForeign(db: Db, a: Party, b: Party, row: Endpoint)
    requires Keyed(db) && Apart(db, a, b) && row.serverId in ServersOf(db, a)
    ensures ViewFor(db.(endpoints := db.endpoints + [row]), b) == ViewFor(db, b)
  {
    ServersApart(db, a, b, row.serverId);
    hide Filter, Mine;
    FilterSnoc(db.endpoints, row, OwnEndpoints(ServersOf(db, b)));
    SameViewFor(db, db.(endpoints := db.endpoints + [row]), b);
  }

  lemma MapSame<T>(rows: seq<T>, f: T -> T)
    requires forall x :: x in rows ==> f(x) == x
    ensures Map(rows, f) == rows
  {
    assert forall i :: 0 <= i < |rows| ==> rows[i] in rows;
  }

  lemma UpdateEndpointForeign(db: Db, a: Party, b: Party, id: Id, mac: Option<string>, notes: Option<string>)
    requires Keyed(db) && Apart(db, a, b) && id in CardsOf(db, a)
    ensures ViewFor(db.(endpoints := Map(db.endpoints, Filled(id, mac, notes))), b) == ViewFor(db, b)
  {
    var f, own := Filled(id, mac, notes), OwnEndpoints(ServersOf(db, b));
    hide Mine, MyCards, Apart, Filter, Map, Keyed;
    FilterMap(db.endpoints, f, own);
    var rows := Filter(db.endpoints, own);
    forall e | e in rows ensures f(e) == e {
      if e.id == id {
        CardIsOwn(db, a.scope, a.session, e);
        ServersApart(db, a, b, e.serverId);
      }
    }
    MapSame(rows, f);
    SameViewFor(db, db.(endpoints := Map(db.endpoints, f)), b);
  }

  lemma SweepForeign(db: Db, a: Party, b: Party, u: string)
    requires Keyed(db) && Apart(db, a, b) && u in a.scope.uuids
    ensures ViewFor(db.(endpoints := Filter(db.endpoints, KeptOnSweep(db, u))), b) == ViewFor(db, b)
  {
    hide Filter, Mine, Apart;
    forall e | e in db.endpoints && OwnEndpoints(ServersOf(db, b))(e) ensures KeptOnSweep(db, u)(e) {
      if ServerHasUuid(db, e.serverId, u) {
        HasUuidLocal(db, a.scope, a.session, e.serverId, u);
        ServersApart(db, a, b, e.serverId);
      }
    }
    FilterWithin(db.endpoints, KeptOnSweep(db, u), OwnEndpoints(ServersOf(db, b)));
    SameViewFor(db, db.(endpoints := Filter(db.endpoints, KeptOnSweep(db, u))), b);
  }

  lemma InsertIpForeign(db: Db, a: Party, b: Party, row: Ip)
    requires Keyed(db) && Apart(db, a, b) && row.endpointId in CardsOf(db, a)
    ensures ViewFor(db.(ips := db.ips + [row]), b) == ViewFor(db, b)
  {
    CardsApart(db, a, b, row.endpointId);
    hide Filter, Mine, MyCards;
    FilterSnoc(db.ips, row, OwnIps(CardsOf(db, b)));
    SameViewFor(db, db.(ips := db.ips + [row]), b);
  }

  lemma DeleteIpsForeign(db: Db, a: Party, b: Party, addr: string, u: string)
    requires Keyed(db) && Apart(db, a, b) && u in a.scope.uuids
    ensures ViewFor(db.(ips := Filter(db.ips, NotAttachedTo(db, addr, u))), b) == ViewFor(db, b)
  {
    hide Filter, Mine, MyCards, Apart, Attached;
    forall ip | ip in db.ips && OwnIps(CardsOf(db, b))(ip) ensures NotAttachedTo(db, addr, u)(ip) {
      if Attached(db, ip, addr, u) {
        AttachedLocal(db, a.scope, a.session, ip, addr, u);
        CardsApart(db, a, b, ip.endpointId);
      }
    }
    FilterWithin(db.ips, NotAttachedTo(db, addr, u), OwnIps(CardsOf(db, b)));
    SameViewFor(db, db.(ips := Filter(db.ips, NotAttachedTo(db, addr, u))), b);
  }

  /** Whatever a message asks for, a message with other names sees no difference. */
  lemma CommitForeign(db: Db, a: Party, b: Party, op: Op, id: Id)
    requires Keyed(db) && Apart(db, a, b) && LocalTo(db, a, op) && id.session == a.session
    ensures ViewFor(Commit(db, op, id), b) == ViewFor(db, b)
  {
    hide Mine, MyCards, View, Keyed, Apart, Filter, Map;
    match op
    case InsertServer(cols) => InsertServerForeign(db, a, b, Server(id, cols));
    case UpdateServers(h, u, m) => if Accepted(db, m) { UpdateForeign(db, a, b, h, u, m); }
    case DeleteServer(s) => DeleteServerForeign(db, a, b, s);
    case DeleteRail(r) => DeleteRailForeign(db, a, b, r);
    case InsertEndpoint(s, name, mac, notes) => InsertEndpointForeign(db, a, b, Endpoint(id, s, name, mac, notes));
    case UpdateEndpoint(e, mac, notes) => UpdateEndpointForeign(db, a, b, e, mac, notes);
    case SweepEndpoints(u) => SweepForeign(db, a, b, u);
    case InsertIp(e, addr, kind, prefix) => InsertIpForeign(db, a, b, Ip(id, e, addr, kind, prefix));
    case DeleteAttachedIps(addr, u) => DeleteIpsForeign(db, a, b, addr, u);
    case _ =>
  }

  // -- the rows a request leaves behind ---------------------------------------------------------------

  /** A row of `a` that no message apart from it names. */
  ghost predicate HisAlone(db: Db, a: Party, t: Server) {
    Belongs(t, a) && forall b :: Apart(db, a, b) ==> !Belongs(t, b)
  }

  /** Row `t` is row `s` as a request of `a` left it. */
  ghost predicate LeftBy(db: Db, a: Party, s: Server, t: Server) {
    s in db.servers && s.id == t.id && (t == s || (Belongs(s, a) && HisAlone(db, a, t)))
  }

  /** A request leaves every row as it was, unless it is the sender's alone. */
  lemma RowLeft(db: Db, a: Party, op: Op, id: Id, t: Server)
    requires LocalTo(db, a, op) && id.session == a.session && t in Commit(db, op, id).servers
    ensures (exists s :: LeftBy(db, a, s, t)) || (op.InsertServer? && t.id == id && HisAlone(db, a, t))
  {
    hide Map;
    if op.UpdateServers? && Accepted(db, op.mutation) {
      var f := Mutated(op.whereHostname, op.whereUuid, op.mutation);
      var rows := Map(db.servers, f);
      var i :| 0 <= i < |rows| && rows[i] == t;
      var s := db.servers[i];
      assert s in db.servers && t == f(s);
      if WhereServer(s, op.whereHostname, op.whereUuid) {
        MatchInScope(s, a.scope, a.session, op.whereHostname, op.whereUuid);
        UpdatedInScope(s, a.scope, a.session, op.whereHostname, op.whereUuid, op.mutation);
        assert forall b :: Apart(db, a, b) ==> !Belongs(s, b);
      }
      assert LeftBy(db, a, s, t);
    } else if op.InsertServer? && t !in db.servers {
      assert t == Server(id, op.cols);
    } else {
      assert LeftBy(db, a, t, t);
    }
  }

  /** A request of one message keeps it apart from the others, and the others apart from each other. */
  lemma ApartKept(db: Db, a: Party, b: Party, c: Party, op: Op, id: Id)
    requires LocalTo(db, a, op) && id.session == a.session
    requires Apart(db, b, c) && (a == b || Apart(db, a, b)) && (a == c || Apart(db, a, c))
    ensures Apart(Commit(db, op, id), b, c)
  {
    hide InScope, Commit, Local, Disjoint;
    var db' := Commit(db, op, id);
    forall t | t in db'.servers ensures !(Belongs(t, b) && Belongs(t, c)) {
      RowLeft(db, a, op, id, t);
      if s :| LeftBy(db, a, s, t) {
      }
    }
  }

  /**
   Different names alone are not enough: a row that carries the hostname of one message
   and the uuid of the other belongs to both, and either may delete it.
   */
  lemma SharedRowInterferes(db: Db, a: Party, b: Party, s: Server, id: Id)
    requires Keyed(db) && s in db.servers && Belongs(s, a) && Belongs(s, b)
    ensures Local(db, a.scope, a.session, DeleteServer(s.id))
    ensures ViewFor(Commit(db, DeleteServer(s.id), id), b) != ViewFor(db, b)
  {
    forall t | t in db.servers && t.id == s.id ensures t == s { OneServer(db, t, s); }
    ViewParts(db, b.scope, b.session);
    ViewParts(Commit(db, DeleteServer(s.id), id), b.scope, b.session);
    assert s in ViewFor(db, b).servers && s !in ViewFor(Commit(db, DeleteServer(s.id), id), b).servers;
  }

}
