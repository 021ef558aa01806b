/** How many cards any number of deliveries of one attach may add, under every tape. */
module AttachBounds {
  import opened Basics
  import opened BondNames
  import opened Cmdb
  import opened Planning
  import opened Retry
  import opened RetryProofs
  import opened StoreFacts
  import opened Attachments
  import opened AttachProofs
  import opened AttachConverges
  import opened Invariants
  import opened Tapes
  import opened EveryTape
  import opened AttachExactly

  // -- bare cards -----------------------------------------------------------------------------------

  /** A card of this server with neither mac nor address: what an attach without a mac reuses. */
  function BareOn(db: Db, server: Id): Endpoint -> bool {
    (e: Endpoint) => e.serverId == server && !Truthy(e.mac) && !HasIps(db, e.id)
  }

  function Bares(db: Db, server: Id): nat { |Filter(db.endpoints, BareOn(db, server))| }

  lemma NoIps(db: Db, id: Id)
    ensures Filter(db.ips, OnEndpoint(id)) == [] <==> !HasIps(db, id)
  {
    if Filter(db.ips, OnEndpoint(id)) != [] {
      var ip := Filter(db.ips, OnEndpoint(id))[0];
      assert ip in Filter(db.ips, OnEndpoint(id));
    }
  }

  /** What the choice of a card says about the cards there are. */
  lemma ChooseMeans(db: Db, server: Id, mac: Option<string>)
    ensures
      match Choose(ViewOf(db, server), mac)
      case Some(v) => v.row in db.endpoints && v.row.serverId == server && ((Truthy(mac) && v.row.mac == mac) || BareOn(db, server)(v.row))
      case None => Bares(db, server) == 0 && forall e :: e in db.endpoints && e.serverId == server && Truthy(mac) ==> e.mac != mac
  {
    ViewNames(db, server);
    hide ViewOf;
    var views := ViewOf(db, server);
    match Choose(views, mac)
    case Some(v) => NoIps(db, v.row.id);
    case None =>
      forall e | e in db.endpoints ensures !BareOn(db, server)(e) {
        NoIps(db, e.id);
        if e.serverId == server {
          var v := EndpointView(e, Filter(db.ips, OnEndpoint(e.id)));
          assert v in views && !Orphan()(v);
        }
      }
      FilterNone(db.endpoints, BareOn(db, server));
      forall e | e in db.endpoints && e.serverId == server && Truthy(mac) ensures e.mac != mac {
        assert EndpointView(e, Filter(db.ips, OnEndpoint(e.id))) in views;
      }
  }

  // -- counting ---------------------------------------------------------------------------------------

  /** The same cards, key by key, and all but this one kept or lost what they had. */
  ghost predicate OneTouched(s: seq<Endpoint>, s': seq<Endpoint>, id: Id) {
    && |s| == |s'| && (forall i :: 0 <= i < |s| ==> s'[i].id == s[i].id)
    && (forall i, j :: 0 <= i < j < |s| ==> s[i].id != s[j].id)
  }

  lemma {:induction false} NoneLost(s: seq<Endpoint>, s': seq<Endpoint>, p: Endpoint -> bool, q: Endpoint -> bool)
    requires |s| == |s'| && forall i :: 0 <= i < |s| ==> (p(s[i]) <==> q(s'[i]))
    ensures |Filter(s', q)| == |Filter(s, p)|
  {
    if s != [] { NoneLost(s[1..], s'[1..], p, q); }
  }

  lemma {:induction false} OneLost(s: seq<Endpoint>, s': seq<Endpoint>, p: Endpoint -> bool, q: Endpoint -> bool, id: Id)
    requires OneTouched(s, s', id)
    requires forall i :: 0 <= i < |s| && s[i].id != id ==> (p(s[i]) <==> q(s'[i]))
    ensures |Filter(s, p)| <= |Filter(s', q)| + 1
    ensures (forall i :: 0 <= i < |s| && s[i].id == id ==> p(s[i]) && !q(s'[i])) && (exists i :: 0 <= i < |s| && s[i].id == id)
      ==> |Filter(s, p)| == |Filter(s', q)| + 1
  {
    if s != [] {
      if s[0].id == id {
        NoneLost(s[1..], s'[1..], p, q);
      } else {
        OneLost(s[1..], s'[1..], p, q, id);
        if i :| 0 <= i < |s| && s[i].id == id { assert s[1..][i - 1] == s[i]; }
      }
    }
  }

  // -- one delivery --------------------------------------------------------------------------------------

  /** The store after the card is in place and `k` rows landed on it. */
  ghost function Settled(db: Db, m: AttachMsg, mac: Option<string>, server: Id, id: Id, rows: seq<Ip>): Db {
    var carded := Carded(db, m, mac, server, id);
    carded.(ips := carded.ips + rows)
  }

  lemma ReusedCount(db: Db, m: AttachMsg, mac: Option<string>, server: Id, id: Id, rows: seq<Ip>)
    requires Keyed(db) && !Truthy(mac) && Choose(ViewOf(db, server), mac).Some?
    requires forall x :: x in rows ==> x.endpointId == CardKey(db, mac, server, id)
    ensures
      var db' := Settled(db, m, mac, server, id, rows);
      && |db'.endpoints| == |db.endpoints| && Bares(db, server) <= Bares(db', server) + 1
      && (rows != [] ==> Bares(db, server) == Bares(db', server) + 1)
  {
    ChooseMeans(db, server, mac);
    hide ViewOf, Choose;
    var v := Choose(ViewOf(db, server), mac).value;
    var db' := Settled(db, m, mac, server, id, rows);
    assert OneTouched(db.endpoints, db'.endpoints, v.row.id);
    forall e: Endpoint, e' | e.id != v.row.id && e' == e ensures BareOn(db, server)(e) <==> BareOn(db', server)(e') {
      assert forall x :: x in db'.ips && x.endpointId == e.id ==> x in db.ips;
      assert forall x :: x in db.ips ==> x in db'.ips;
    }
    if rows != [] { assert rows[0] in db'.ips && HasIps(db', v.row.id); }
    OneRow(db, v.row);
    hide HasIps, Filter, Keyed;
    OneLost(db.endpoints, db'.endpoints, BareOn(db, server), BareOn(db', server), v.row.id);
  }

  lemma OneRow(db: Db, e: Endpoint)
    requires Keyed(db) && e in db.endpoints
    ensures forall i :: 0 <= i < |db.endpoints| && db.endpoints[i].id == e.id ==> db.endpoints[i] == e
    ensures exists i :: 0 <= i < |db.endpoints| && db.endpoints[i].id == e.id
  {
    var k :| 0 <= k < |db.endpoints| && db.endpoints[k] == e;
  }

  lemma CreatedCount(db: Db, m: AttachMsg, mac: Option<string>, server: Id, session: nat, minted: nat, rows: seq<Ip>)
    requires Unborn(db, session, minted) && !Truthy(mac) && Choose(ViewOf(db, server), mac).None?
    requires forall x :: x in rows ==> x.endpointId == Id(session, minted)
    ensures
      var db' := Settled(db, m, mac, server, Id(session, minted), rows);
      && |db'.endpoints| == |db.endpoints| + 1 && Bares(db, server) == 0
      && (rows != [] ==> Bares(db', server) == 0)
  {
    ChooseMeans(db, server, mac);
    hide ViewOf, Choose, NextBond;
    var id := Id(session, minted);
    var db' := Settled(db, m, mac, server, id, rows);
    var op := NewEndpoint(server, m, mac, ViewOf(db, server));
    var row := Endpoint(id, server, op.name, op.mac, op.notes);
    assert db'.endpoints == db.endpoints + [row];
    forall e | e in db.endpoints ensures BareOn(db, server)(e) <==> BareOn(db', server)(e) {
      assert e.id != id;
      assert forall x :: x in db'.ips && x.endpointId == e.id ==> x in db.ips;
      assert forall x :: x in db.ips ==> x in db'.ips;
    }
    if rows != [] { assert rows[0] in db'.ips && HasIps(db', id); }
    hide HasIps, Unborn;
    FilterSnoc(db.endpoints, row, BareOn(db', server));
    FilterSame(db.endpoints, BareOn(db, server), BareOn(db', server));
  }

  /** What one delivery does to the number of cards, for a port without a mac. */
  ghost predicate Counted(before: Db, after: Db, server: Id) {
    || (|after.endpoints| == |before.endpoints| && Bares(before, server) <= Bares(after, server) + 1)
    || (|after.endpoints| == |before.endpoints| + 1 && Bares(before, server) == 0)
  }

  lemma DealtCounted(w: World, m: AttachMsg, port: AttachPort, server: Id, o: Outcome, k: nat, op: Op)
    requires Sound(w) && !Truthy(port.mac) && Dealt(w, m, port, server, o, k, op)
    ensures Counted(w.db, o.w.db, server)
  {
    var id := FreshId(w);
    var grown := MintedWithCard(w.db, port.mac, server, w.minted);
    var rows := IpRows(op, w.session, grown, k);
    hide ViewOf, Choose, UsedKinds, Bares, Keyed, Unborn, IpRows;
    if o.w.db != w.db {
      RowsAreAll(op, w.session, grown, k);
      assert o.w.db == Settled(w.db, m, port.mac, server, id, rows);
      if Choose(ViewOf(w.db, server), port.mac).Some? {
        ReusedCount(w.db, m, port.mac, server, id, rows);
      } else {
        CreatedCount(w.db, m, port.mac, server, w.session, w.minted, rows);
      }
    }
  }

  lemma DeliveryCounted(w: World, m: AttachMsg, s: Server)
    requires Found(w, m, s) && !Truthy(m.port.value.mac)
    ensures Counted(w.db, Attach(w, m).w.db, s.id)
  {
    hide Attach, Dealt, Sound, First, Matching, Counted;
    var k, op := AttachDealt(w, m);
    DealtCounted(w, m, m.port.value, s.id, Attach(w, m), k, op);
  }

  /** Under every tape: each delivery adds a card only once every bare card is used. */
  lemma {:induction false} CardsBounded(w: World, m: AttachMsg, s: Server, n: nat)
    requires Found(w, m, s) && !Truthy(m.port.value.mac)
    ensures
      var db := Deliveries(w, m, n).w.db;
      var added := |db.endpoints| - |w.db.endpoints|;
      var bare := Bares(w.db, s.id);
      && 0 <= added && (added == 0 || added <= n - bare)
      && Bares(db, s.id) - added >= bare - n
  {
    hide Attach, Bares, Found;
    if n > 0 {
      CardsBounded(w, m, s, n - 1);
      StillFound(w, m, s, n - 1);
      DeliveryCounted(Deliveries(w, m, n - 1).w, m, s);
    }
  }

  lemma StillFound(w: World, m: AttachMsg, s: Server, n: nat)
    requires Found(w, m, s)
    ensures Found(Deliveries(w, m, n).w, m, s)
  {
    hide Deliveries, OnHost, Sound, First, Matching;
    HostNeverShrinks(w, m, s, n, n);
  }

  // -- a tape that makes every delivery land -------------------------------------------------------------

  /** The world after a delivery whose probe was refused and whose address insert was answered. */
  ghost function Landed1(w: World, m: AttachMsg, s: Server): World
    requires m.instance.Some? && m.port.Some?
  {
    AttachIp(Reached(w, m, s.id).(tape := [Replies]), m.instance.value, m.port.value.addr, IpOp(w, m, s.id)).w
  }

  lemma LandingCounted(w: World, m: AttachMsg, s: Server, rest: seq<Fault>)
    requires Found(w, m, s) && !Truthy(m.port.value.mac)
    ensures
      var l := Landed1(w, m, s);
      && Attach(w.(tape := Lead(w, m, s.id) + ([Replies] + rest)), m).w == l.(tape := rest) && l.tape == []
      && Found(l, m, s)
      && if Bares(w.db, s.id) > 0 then |l.db.endpoints| == |w.db.endpoints| && Bares(l.db, s.id) == Bares(w.db, s.id) - 1
         else |l.db.endpoints| == |w.db.endpoints| + 1 && Bares(l.db, s.id) == 0
  {
    hide Reached, Lead, Attach, AttachIp, ViewOf, Choose, UsedKinds, StorePrefix, Bares, Sound, First, Matching, Keyed, Unborn, IpRows, NewIp;
    var port := m.port.value;
    Reaches(w, m, s, [Replies] + rest);
    Reaches(w, m, s, [Replies]);
    var r, op, l := Reached(w, m, s.id), IpOp(w, m, s.id), Landed1(w, m, s);
    LandsReplied(r, m.instance.value, op, rest);
    AnyTapeAhead(r, [Replies], l, op, 1);
    StartAnywhere(w, m, s);
    var j := AnyDelivery(w.(tape := Lead(w, m, s.id) + [Replies]), m, s);
    LandingSettled(w, m, s, l);
  }

  lemma LandingSettled(w: World, m: AttachMsg, s: Server, l: World)
    requires Found(w, m, s) && !Truthy(m.port.value.mac)
    requires
      var r := Reached(w, m, s.id);
      && r.db == Carded(w.db, m, m.port.value.mac, s.id, FreshId(w)) && Landings(r, l, IpOp(w, m, s.id), 1)
    ensures
      if Bares(w.db, s.id) > 0 then |l.db.endpoints| == |w.db.endpoints| && Bares(l.db, s.id) == Bares(w.db, s.id) - 1
      else |l.db.endpoints| == |w.db.endpoints| + 1 && Bares(l.db, s.id) == 0
  {
    var port, op, r := m.port.value, IpOp(w, m, s.id), Reached(w, m, s.id);
    var rows := IpRows(op, r.session, r.minted, 1);
    RowsAreAll(op, r.session, r.minted, 1);
    ChooseMeans(w.db, s.id, port.mac);
    hide Reached, ViewOf, Choose, UsedKinds, StorePrefix, IpRows, First, Matching;
    assert l.db == Settled(w.db, m, port.mac, s.id, FreshId(w), rows);
    if Choose(ViewOf(w.db, s.id), port.mac).Some? {
      ReusedCount(w.db, m, port.mac, s.id, FreshId(w), rows);
    } else {
      CreatedCount(w.db, m, port.mac, s.id, w.session, w.minted, rows);
    }
  }

  /** A tape under which each of `n` deliveries lands its address, and the world that leaves. */
  lemma {:induction false} LandAll(w: World, m: AttachMsg, s: Server, n: nat) returns (fates: seq<Fault>, end: World)
    requires Found(w, m, s) && !Truthy(m.port.value.mac)
    ensures forall rest {:trigger Deliveries(w.(tape := fates + rest), m, n)} :: Deliveries(w.(tape := fates + rest), m, n).w == end.(tape := rest)
    ensures Found(end, m, s)
    ensures
      var bare := Bares(w.db, s.id);
      && |end.db.endpoints| == |w.db.endpoints| + (if n <= bare then 0 else n - bare)
      && Bares(end.db, s.id) == if n <= bare then bare - n else 0
  {
    hide Attach, Bares, Lead, Landed1, Sound, First, Matching;
    if n == 0 {
      fates, end := [], w;
      assert forall rest: seq<Fault> :: [] + rest == rest;
    } else {
      var before, mid := LandAll(w, m, s, n - 1);
      var more := Lead(mid, m, s.id) + [Replies];
      fates, end := before + more, Landed1(mid, m, s);
      LandingCounted(mid, m, s, []);
      forall rest ensures Deliveries(w.(tape := fates + rest), m, n).w == end.(tape := rest) {
        assert fates + rest == before + (more + rest) && more + rest == Lead(mid, m, s.id) + ([Replies] + rest);
        LandingCounted(mid, m, s, rest);
        LastDelivery(w.(tape := before + (more + rest)), m, n);
      }
    }
  }

  lemma LastDelivery(w: World, m: AttachMsg, n: nat)
    requires n > 0
    ensures Deliveries(w, m, n).w == Attach(Deliveries(w, m, n - 1).w, m).w
  {
    hide Attach;
  }

  // -- a port with a mac -----------------------------------------------------------------------------------

  ghost predicate HasMac(db: Db, server: Id, mac: Option<string>) {
    exists e :: e in db.endpoints && e.serverId == server && e.mac == mac
  }

  /** Cards as before, at most one more, and then one with this mac is there. */
  ghost predicate OneCard(before: Db, db: Db, server: Id, mac: Option<string>) {
    && CardsGrow(before.endpoints, db.endpoints, server)
    && (|db.endpoints| > |before.endpoints| ==> HasMac(db, server, mac))
  }

  lemma CardedHasMac(before: Db, db: Db, m: AttachMsg, mac: Option<string>, server: Id, id: Id)
    requires Truthy(mac) && Keyed(db) && OneCard(before, db, server, mac)
    ensures OneCard(before, Carded(db, m, mac, server, id), server, mac)
  {
    hide ViewOf, Keyed, NextBond, HasIps, Filter, Bares;
    ChooseMeans(db, server, mac);
    hide Choose;
    match Choose(ViewOf(db, server), mac)
    case Some(v) =>
      FilledFills(db, m, mac, server);
      var db' := FilledIn(db, m, mac, v);
      GrowTransitive(before.endpoints, db.endpoints, db'.endpoints, server);
      if e :| e in db.endpoints && e.serverId == server && e.mac == mac {
        var i :| 0 <= i < |db.endpoints| && db.endpoints[i] == e;
        assert db'.endpoints[i] in db'.endpoints && db'.endpoints[i].mac == mac;
      }
    case None =>
      assert !HasMac(db, server, mac);
      var op := NewEndpoint(server, m, mac, ViewOf(db, server));
      var row := Endpoint(id, server, op.name, op.mac, op.notes);
      assert row in Commit(db, op, id).endpoints && row.mac == mac;
      assert Commit(db, op, id).endpoints == db.endpoints + [row];
  }

  /**
   Under every tape, refused probes included: any number of deliveries of an attach
   whose port has a mac add at most one card, and no other card but for filled-in parts.
   */
  lemma {:induction false} OneCardPerMac(w: World, m: AttachMsg, s: Server, n: nat)
    requires Found(w, m, s) && Truthy(m.port.value.mac)
    ensures OneCard(w.db, Deliveries(w, m, n).w.db, s.id, m.port.value.mac)
  {
    hide Attach, Sound, First, Matching, CardsGrow, HasMac, ViewOf;
    if n == 0 {
      GrowNone(w.db.endpoints, s.id);
    } else {
      hide OneCard;
      OneCardPerMac(w, m, s, n - 1);
      StillFound(w, m, s, n - 1);
      OneMoreCard(w.db, Deliveries(w, m, n - 1).w, m, s);
    }
  }

  lemma GrowNone(cards: seq<Endpoint>, server: Id)
    ensures CardsGrow(cards, cards, server)
  {
  }

  lemma OneMoreCard(before: Db, w: World, m: AttachMsg, s: Server)
    requires Found(w, m, s) && Truthy(m.port.value.mac) && OneCard(before, w.db, s.id, m.port.value.mac)
    ensures OneCard(before, Attach(w, m).w.db, s.id, m.port.value.mac)
  {
    hide Attach, OneCard, Carded, CardKey, MintedWithCard, First, Matching, IpRows, UsedKinds, ViewOf, Unborn;
    var k, op := AttachDealt(w, m);
    CardedHasMac(before, w.db, m, m.port.value.mac, s.id, FreshId(w));
    SameEndpoints(before, Carded(w.db, m, m.port.value.mac, s.id, FreshId(w)), Attach(w, m).w.db, s.id, m.port.value.mac);
  }

  lemma SameEndpoints(before: Db, db: Db, db': Db, server: Id, mac: Option<string>)
    ensures db'.endpoints == db.endpoints && OneCard(before, db, server, mac) ==> OneCard(before, db', server, mac)
  {
  }

  /**
   Exactly when deliveries add at most one card under every tape: when the port has a
   mac, or when there are at most as many deliveries as bare cards to reuse, and one more.
   */
  lemma CardsExactly(w: World, m: AttachMsg, s: Server, n: nat)
    requires Found(w, m, s)
    ensures
      (forall tape: seq<Fault> :: |Deliveries(w.(tape := tape), m, n).w.db.endpoints| <= |w.db.endpoints| + 1)
      <==> Truthy(m.port.value.mac) || n <= Bares(w.db, s.id) + 1
  {
    StartAnywhere(w, m, s);
    hide Deliveries, Found, Bares;
    if Truthy(m.port.value.mac) {
      forall tape: seq<Fault> ensures |Deliveries(w.(tape := tape), m, n).w.db.endpoints| <= |w.db.endpoints| + 1 {
        OneCardPerMac(w.(tape := tape), m, s, n);
      }
    } else if n <= Bares(w.db, s.id) + 1 {
      forall tape: seq<Fault> ensures |Deliveries(w.(tape := tape), m, n).w.db.endpoints| <= |w.db.endpoints| + 1 {
        CardsBounded(w.(tape := tape), m, s, n);
      }
    } else {
      var tape, end := LandAll(w, m, s, n);
      assert tape + [] == tape;
      assert Deliveries(w.(tape := tape + []), m, n).w == end.(tape := []);
    }
  }
}
