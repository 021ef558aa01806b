/** Per-server uniqueness: endpoint names, and at most one `be` and one `fe` address. */
module Invariants {
  import opened Basics
  import opened Cmdb
  import opened Retry
  import opened StoreFacts

  /** No server has two endpoints of the same name. */
  ghost predicate NamesUnique(db: Db) {
    forall i, j :: 0 <= i < j < |db.endpoints| && db.endpoints[i].serverId == db.endpoints[j].serverId
      ==> db.endpoints[i].name != db.endpoints[j].name
  }

  /** This card is on this server. */
  ghost predicate CardOn(db: Db, server: Id, card: Id) {
    exists e :: e in db.endpoints && e.id == card && e.serverId == server
  }

  ghost predicate Scarce(kind: Option<string>) { kind == Some("be") || kind == Some("fe") }

  /** Two addresses on cards of one server. */
  ghost predicate SameServer(db: Db, a: Ip, b: Ip) {
    exists server :: CardOn(db, server, a.endpointId) && CardOn(db, server, b.endpointId)
  }

  /** No server has two `be` or two `fe` addresses. */
  ghost predicate KindsUnique(db: Db) {
    forall i, j :: 0 <= i < j < |db.ips| && db.ips[i].kind == db.ips[j].kind && Scarce(db.ips[i].kind)
      ==> !SameServer(db, db.ips[i], db.ips[j])
  }

  ghost predicate Tidy(db: Db) { NamesUnique(db) && KindsUnique(db) }

  /** Unique names stay unique, and so do scarce kinds: each on its own. */
  ghost predicate Tidier(a: Db, b: Db) {
    (NamesUnique(a) ==> NamesUnique(b)) && (KindsUnique(a) ==> KindsUnique(b))
  }

  /** The name is free on the server. */
  ghost predicate NameFree(db: Db, server: Id, name: string) {
    forall e :: e in db.endpoints && e.serverId == server ==> e.name != name
  }

  /** No address of this kind is on the server. */
  ghost predicate KindFree(db: Db, server: Id, kind: Option<string>) {
    forall ip :: ip in db.ips && ip.kind == kind ==> !CardOn(db, server, ip.endpointId)
  }

  // -- what each request keeps --------------------------------------------------------------

  lemma TidyServers(db: Db, db': Db)
    requires db'.endpoints == db.endpoints && db'.ips == db.ips
    ensures Tidier(db, db')
  {
    assert forall s, c :: CardOn(db', s, c) == CardOn(db, s, c);
  }

  lemma OneServerPerCard(db: Db, card: Id, a: Id, b: Id)
    requires Keyed(db) && CardOn(db, a, card) && CardOn(db, b, card)
    ensures a == b
  {
    var e :| e in db.endpoints && e.id == card && e.serverId == a;
    var f :| f in db.endpoints && f.id == card && f.serverId == b;
    var i :| 0 <= i < |db.endpoints| && db.endpoints[i] == e;
    var j :| 0 <= j < |db.endpoints| && db.endpoints[j] == f;
  }

  lemma TidyNewCard(db: Db, op: Op, session: nat, minted: nat)
    requires Unborn(db, session, minted) && op.InsertEndpoint? && NameFree(db, op.serverId, op.name)
    ensures Tidier(db, Commit(db, op, Id(session, minted)))
  {
    if KindsUnique(db) { KindsNewCard(db, op, session, minted); }
  }

  lemma KindsNewCard(db: Db, op: Op, session: nat, minted: nat)
    requires KindsUnique(db) && Unborn(db, session, minted) && op.InsertEndpoint?
    ensures KindsUnique(Commit(db, op, Id(session, minted)))
  {
    var id := Id(session, minted);
    var db' := Commit(db, op, id);
    forall i, j | 0 <= i < j < |db'.ips| && db'.ips[i].kind == db'.ips[j].kind && Scarce(db'.ips[i].kind)
      ensures !SameServer(db', db'.ips[i], db'.ips[j])
    {
      assert db.ips[i] in db.ips && db.ips[j] in db.ips;
      OldCards(db, db', id, db.ips[i]);
      OldCards(db, db', id, db.ips[j]);
      assert !SameServer(db, db.ips[i], db.ips[j]);
    }
  }

  lemma OldCards(db: Db, db': Db, id: Id, ip: Ip)
    requires ip.endpointId != id && db.endpoints <= db'.endpoints && |db'.endpoints| == |db.endpoints| + 1
    requires db'.endpoints[|db.endpoints|].id == id
    ensures forall s :: CardOn(db', s, ip.endpointId) ==> CardOn(db, s, ip.endpointId)
  {
    forall s | CardOn(db', s, ip.endpointId) ensures CardOn(db, s, ip.endpointId) {
      var e :| e in db'.endpoints && e.id == ip.endpointId && e.serverId == s;
      var k :| 0 <= k < |db'.endpoints| && db'.endpoints[k] == e;
      assert k < |db.endpoints| && db.endpoints[k] == e;
    }
  }

  lemma TidyNewIp(db: Db, op: Op, id: Id, server: Id)
    requires Keyed(db) && op.InsertIp? && CardOn(db, server, op.endpointId)
    requires Scarce(op.kind) ==> KindFree(db, server, op.kind)
    ensures Tidier(db, Commit(db, op, id))
  {
    if KindsUnique(db) { KindsNewIp(db, op, id, server); }
  }

  lemma KindsNewIp(db: Db, op: Op, id: Id, server: Id)
    requires KindsUnique(db) && Keyed(db) && op.InsertIp? && CardOn(db, server, op.endpointId)
    requires Scarce(op.kind) ==> KindFree(db, server, op.kind)
    ensures KindsUnique(Commit(db, op, id))
  {
    var db' := Commit(db, op, id);
    assert forall s, c :: CardOn(db', s, c) == CardOn(db, s, c);
    forall i, j | 0 <= i < j < |db'.ips| && db'.ips[i].kind == db'.ips[j].kind && Scarce(db'.ips[i].kind)
      ensures !SameServer(db', db'.ips[i], db'.ips[j])
    {
      if j < |db.ips| {
        assert !SameServer(db, db.ips[i], db.ips[j]);
      } else {
        assert db.ips[i] in db.ips;
        forall s | CardOn(db', s, op.endpointId) ensures s == server { OneServerPerCard(db, op.endpointId, s, server); }
      }
    }
  }

  lemma TidyFilled(db: Db, db': Db)
    requires db'.ips == db.ips && |db'.endpoints| == |db.endpoints|
    requires forall i :: 0 <= i < |db.endpoints| ==>
      && db'.endpoints[i].id == db.endpoints[i].id && db'.endpoints[i].serverId == db.endpoints[i].serverId
      && db'.endpoints[i].name == db.endpoints[i].name
    ensures Tidier(db, db')
  {
    forall s, c | CardOn(db', s, c) ensures CardOn(db, s, c) {
      var e :| e in db'.endpoints && e.id == c && e.serverId == s;
      var k :| 0 <= k < |db'.endpoints| && db'.endpoints[k] == e;
      assert db.endpoints[k] in db.endpoints;
    }
  }

  lemma {:induction false} FilterPairs<T(!new)>(s: seq<T>, p: T -> bool, r: (T, T) -> bool)
    requires forall i, j :: 0 <= i < j < |s| ==> r(s[i], s[j])
    ensures forall i, j :: 0 <= i < j < |Filter(s, p)| ==> r(Filter(s, p)[i], Filter(s, p)[j])
  {
    if s != [] {
      FilterPairs(s[1..], p, r);
      if p(s[0]) {
        forall x | x in Filter(s[1..], p) ensures r(s[0], x) {
          var i :| 0 <= i < |s[1..]| && s[1..][i] == x;
          assert s[i + 1] == x;
        }
      }
    }
  }

  lemma TidySwept(db: Db, uuid: string, id: Id)
    ensures Tidier(db, Commit(db, SweepEndpoints(uuid), id))
  {
    var db' := Commit(db, SweepEndpoints(uuid), id);
    if NamesUnique(db) {
      FilterPairs(db.endpoints, KeptOnSweep(db, uuid), (a: Endpoint, b: Endpoint) => a.serverId == b.serverId ==> a.name != b.name);
    }
    assert forall s, c :: CardOn(db', s, c) ==> CardOn(db, s, c);
  }

  lemma TidyFewerIps(db: Db, addr: string, uuid: string, id: Id)
    ensures Tidier(db, Commit(db, DeleteAttachedIps(addr, uuid), id))
  {
    if KindsUnique(db) { KindsFewerIps(db, addr, uuid, id); }
  }

  lemma KindsFewerIps(db: Db, addr: string, uuid: string, id: Id)
    requires KindsUnique(db)
    ensures KindsUnique(Commit(db, DeleteAttachedIps(addr, uuid), id))
  {
    var db' := Commit(db, DeleteAttachedIps(addr, uuid), id);
    var apart := (a: Ip, b: Ip) => a.kind == b.kind && Scarce(a.kind) ==> !SameServer(db, a, b);
    FilterPairs(db.ips, NotAttachedTo(db, addr, uuid), apart);
    assert forall s, c :: CardOn(db', s, c) == CardOn(db, s, c);
    forall i, j | 0 <= i < j < |db'.ips| && db'.ips[i].kind == db'.ips[j].kind && Scarce(db'.ips[i].kind)
      ensures !SameServer(db', db'.ips[i], db'.ips[j])
    {
      assert apart(db'.ips[i], db'.ips[j]);
    }
  }
}
