/** Any number of deliveries of one attach message, under any faults, attach the address once. */
module AttachConverges {
  import opened Basics
  import opened BondNames
  import opened Cmdb
  import opened Planning
  import opened Retry
  import opened RetryProofs
  import opened StoreFacts
  import opened Attachments
  import opened AttachProofs

  /** The world after some deliveries, and whether one of them returned normally. */
  datatype History = History(w: World, returned: bool)

  /** `n` deliveries of the same message, one after the other. */
  function Deliveries(w: World, m: AttachMsg, n: nat): (h: History)
    ensures Extends(w, h.w)
  {
    if n == 0 then History(w, false)
    else
      var h := Deliveries(w, m, n - 1);
      var o := Attach(h.w, m);
      History(o.w, h.returned || o.status.Returned?)
  }

  // -- what deliveries may do to the store -------------------------------------------------------

  /** A card keeps its key, server and name; only a missing mac or missing notes may be filled in. */
  ghost predicate Fills(e: Endpoint, e': Endpoint) {
    && e'.id == e.id && e'.serverId == e.serverId && e'.name == e.name
    && (Truthy(e.mac) ==> e'.mac == e.mac)
    && (Truthy(e.notes) ==> e'.notes == e.notes)
  }

  ghost predicate CardsGrow(before: seq<Endpoint>, after: seq<Endpoint>, server: Id) {
    && |before| <= |after| <= |before| + 1
    && (forall i :: 0 <= i < |before| ==> Fills(before[i], after[i]))
    && (|after| > |before| ==> after[|before|].serverId == server)
  }

  /** The address is nowhere on the host, or in exactly one new row. */
  ghost predicate IpsGrow(before: Db, after: Db, addr: string, uuid: string) {
    || (after.ips == before.ips && OnHost(after, addr, uuid) == [])
    || (exists row :: after.ips == before.ips + [row] && OnHost(after, addr, uuid) == [row])
  }

  /** What every delivery keeps, relative to the store before the first one. */
  ghost predicate Converging(before: Db, after: Db, m: AttachMsg, server: Id)
    requires m.instance.Some? && m.port.Some?
  {
    && after.servers == before.servers && after.rails == before.rails && after.catalog == before.catalog
    && CardsGrow(before.endpoints, after.endpoints, server)
    && IpsGrow(before, after, m.port.value.addr, m.instance.value)
    // a card added earlier is found again instead of adding a second one
    && (|after.endpoints| > |before.endpoints| && after.ips == before.ips ==>
      Choose(ViewOf(after, server), m.port.value.mac).Some?)
  }

  // -- the chosen card is found again ---------------------------------------------------------------

  lemma ChooseSome(db: Db, server: Id, mac: Option<string>, e: Endpoint)
    requires e in db.endpoints && e.serverId == server
    requires (Truthy(mac) && e.mac == mac) || (Filter(db.ips, OnEndpoint(e.id)) == [] && !Truthy(e.mac))
    ensures Choose(ViewOf(db, server), mac).Some?
  {
    ViewNames(db, server);
    var v := EndpointView(e, Filter(db.ips, OnEndpoint(e.id)));
    assert v in ViewOf(db, server);
    assert ByMac(mac)(v) || Orphan()(v);
  }

  lemma FilledAgain(db: Db, m: AttachMsg, mac: Option<string>, server: Id)
    requires Choose(ViewOf(db, server), mac).Some?
    ensures Choose(ViewOf(FilledIn(db, m, mac, Choose(ViewOf(db, server), mac).value), server), mac).Some?
  {
    var v := Choose(ViewOf(db, server), mac).value;
    var db' := FilledIn(db, m, mac, v);
    ViewNames(db, server);
    var i :| 0 <= i < |db.endpoints| && db.endpoints[i] == v.row;
    var e := db'.endpoints[i];
    assert e == Filled(v.row.id, FillMac(v, mac), FillNotes(v, m.network))(v.row);
    assert e in db'.endpoints && e.serverId == server && e.id == v.row.id;
    assert Filter(db'.ips, OnEndpoint(e.id)) == v.ips;
    hide ViewOf;
    ChooseSome(db', server, mac, e);
  }

  lemma AddedAgain(db: Db, m: AttachMsg, mac: Option<string>, server: Id, session: nat, minted: nat)
    requires Unborn(db, session, minted)
    ensures Choose(ViewOf(Commit(db, NewEndpoint(server, m, mac, ViewOf(db, server)), Id(session, minted)), server), mac).Some?
  {
    var op := NewEndpoint(server, m, mac, ViewOf(db, server));
    var db' := Commit(db, op, Id(session, minted));
    var row := Endpoint(Id(session, minted), server, op.name, op.mac, op.notes);
    assert row in db'.endpoints;
    FilterNone(db'.ips, OnEndpoint(row.id));
    hide ViewOf, NextBond;
    ChooseSome(db', server, mac, row);
  }

  // -- one delivery ------------------------------------------------------------------------------------

  lemma FilledFills(db: Db, m: AttachMsg, mac: Option<string>, server: Id)
    requires Choose(ViewOf(db, server), mac).Some? && Keyed(db)
    ensures
      var db' := FilledIn(db, m, mac, Choose(ViewOf(db, server), mac).value);
      && |db'.endpoints| == |db.endpoints|
      && forall i :: 0 <= i < |db.endpoints| ==> Fills(db.endpoints[i], db'.endpoints[i])
  {
    hide ViewOf, Keyed, Map;
    var v := Choose(ViewOf(db, server), mac).value;
    ViewNames(db, server);
    OnlyRow(db, v.row);
    hide ViewOf, Choose, Keyed;
  }

  lemma OnlyRow(db: Db, e: Endpoint)
    requires Keyed(db) && e in db.endpoints
    ensures forall i :: 0 <= i < |db.endpoints| && db.endpoints[i].id == e.id ==> db.endpoints[i] == e
  {
    var k :| 0 <= k < |db.endpoints| && db.endpoints[k] == e;
  }

  lemma GrowTransitive(a: seq<Endpoint>, b: seq<Endpoint>, c: seq<Endpoint>, server: Id)
    requires CardsGrow(a, b, server) && |c| == |b| && forall i :: 0 <= i < |b| ==> Fills(b[i], c[i])
    ensures CardsGrow(a, c, server)
  {
  }

  lemma ReuseConverges(before: Db, db: Db, m: AttachMsg, server: Id)
    requires m.instance.Some? && m.port.Some? && Choose(ViewOf(db, server), m.port.value.mac).Some?
    requires Converging(before, db, m, server) && Keyed(db) && OnHost(db, m.port.value.addr, m.instance.value) == []
    ensures
      Converging(before, FilledIn(db, m, m.port.value.mac, Choose(ViewOf(db, server), m.port.value.mac).value), m, server)
  {
    var mac := m.port.value.mac;
    var v := Choose(ViewOf(db, server), mac).value;
    var db' := FilledIn(db, m, mac, v);
    FilledFills(db, m, mac, server);
    FilledAgain(db, m, mac, server);
    FilledKeeps(db, m, mac, v, m.port.value.addr, m.instance.value);
    GrowTransitive(before.endpoints, db.endpoints, db'.endpoints, server);
    hide ViewOf, OnHost, EndpointOnUuid, Choose, CardsGrow, Keyed, Map, Filled;
  }

  lemma NewConverges(before: Db, db: Db, m: AttachMsg, server: Id, session: nat, minted: nat)
    requires m.instance.Some? && m.port.Some? && Choose(ViewOf(db, server), m.port.value.mac).None?
    requires Converging(before, db, m, server) && Unborn(db, session, minted)
    requires OnHost(db, m.port.value.addr, m.instance.value) == []
    ensures
      var op := NewEndpoint(server, m, m.port.value.mac, ViewOf(db, server));
      Converging(before, Commit(db, op, Id(session, minted)), m, server)
  {
    hide ViewOf, OnHost, Choose, NextBond, Unborn;
    var mac := m.port.value.mac;
    var op := NewEndpoint(server, m, mac, ViewOf(db, server));
    var db' := Commit(db, op, Id(session, minted));
    NewCardHoldsNothing(db, op, session, minted, m.port.value.addr, m.instance.value);
    AddedAgain(db, m, mac, server, session, minted);
    assert db.ips == before.ips;
    assert |db.endpoints| == |before.endpoints|;
  }

  /** Putting the card in place keeps converging. */
  lemma CardedConverges(before: Db, db: Db, m: AttachMsg, server: Id, session: nat, minted: nat)
    requires m.instance.Some? && m.port.Some?
    requires Converging(before, db, m, server) && Keyed(db) && Unborn(db, session, minted)
    requires OnHost(db, m.port.value.addr, m.instance.value) == []
    ensures Converging(before, Carded(db, m, m.port.value.mac, server, Id(session, minted)), m, server)
  {
    hide Converging, Keyed, Unborn, ViewOf, OnHost, Choose;
    if Choose(ViewOf(db, server), m.port.value.mac).Some? {
      ReuseConverges(before, db, m, server);
    } else {
      NewConverges(before, db, m, server, session, minted);
    }
  }

  /** Then adding the address does. */
  lemma AddedConverges(before: Db, carded: Db, m: AttachMsg, server: Id, op: Op, id: Id)
    requires m.instance.Some? && m.port.Some? && Converging(before, carded, m, server)
    requires op.InsertIp? && op.addr == m.port.value.addr && EndpointOnUuid(carded, op.endpointId, m.instance.value)
    requires OnHost(carded, m.port.value.addr, m.instance.value) == []
    ensures Converging(before, Commit(carded, op, id), m, server)
    ensures |OnHost(Commit(carded, op, id), m.port.value.addr, m.instance.value)| == 1
  {
    hide Reads;
    IpDetected(carded, op, m.port.value.addr, m.instance.value);
    var row := Ip(id, op.endpointId, op.addr, op.kind, op.prefix);
    hide ViewOf, OnHost, EndpointOnUuid;
    assert Commit(carded, op, id).ips == before.ips + [row];
  }

  lemma CardedSound(db: Db, m: AttachMsg, mac: Option<string>, server: Id, session: nat, minted: nat)
    requires Keyed(db) && Unborn(db, session, minted) && Born(server, session, minted)
    ensures
      var id := Id(session, minted);
      var carded := Carded(db, m, mac, server, id);
      var grown := MintedWithCard(db, mac, server, minted);
      Keyed(carded) && Unborn(carded, session, grown) && Born(CardKey(db, mac, server, id), session, grown)
  {
    var endpoints := ViewOf(db, server);
    ViewNames(db, server);
    match Choose(endpoints, mac)
    case Some(v) => FilledSound(db, m, mac, v, session, minted);
    case None =>
      var op := NewEndpoint(server, m, mac, endpoints);
      hide NextBond, ViewOf, Keyed, Unborn, Commit;
      CommitSound(db, op, session, minted);
  }

  lemma FilledSound(db: Db, m: AttachMsg, mac: Option<string>, v: EndpointView, session: nat, minted: nat)
    requires Keyed(db) && Unborn(db, session, minted)
    ensures Keyed(FilledIn(db, m, mac, v)) && Unborn(FilledIn(db, m, mac, v), session, minted)
  {
    hide Keyed, Unborn;
    CommitSound(db, UpdateEndpoint(v.row.id, FillMac(v, mac), FillNotes(v, m.network)), session, minted);
  }

  lemma DeliveredSound(w: World, m: AttachMsg, port: AttachPort, server: Id, o: Outcome)
    requires Sound(w) && Born(server, w.session, w.minted) && o.w.session == w.session && Delivered(w, m, port, server, o)
    ensures Sound(o.w)
  {
    hide Carded, CardKey, ViewOf, Choose, UsedKinds, Keyed, Unborn, Commit, MintedWithCard, NewIp;
    CardedSound(w.db, m, port.mac, server, w.session, w.minted);
    var id := FreshId(w);
    var carded := Carded(w.db, m, port.mac, server, id);
    var card := CardKey(w.db, port.mac, server, id);
    var grown := MintedWithCard(w.db, port.mac, server, w.minted);
    var used := UsedKinds(ViewOf(w.db, server));
    if AddsIp(carded, o.w.db, card, port.addr, used, Id(w.session, grown)) {
      var prefix :| o.w.db == Commit(carded, NewIp(card, port.addr, prefix, used), Id(w.session, grown));
      CommitSound(carded, NewIp(card, port.addr, prefix, used), w.session, grown);
    }
  }

  /** One more delivery keeps converging; if it returns normally, the address is attached. */
  lemma DeliveryConverges(before: Db, w: World, m: AttachMsg, s: Server)
    requires Quiet(w) && Sound(w) && m.instance.Some? && m.port.Some?
    requires First(w.db.servers, Matching(None, Some(m.instance.value))) == Some(s)
    requires Converging(before, w.db, m, s.id) && Honest(Attach(w, m).w.log)
    ensures
      var o := Attach(w, m);
      && Converging(before, o.w.db, m, s.id) && Sound(o.w) && Quiet(o.w)
      && (o.status.Returned? ==> |OnHost(o.w.db, m.port.value.addr, m.instance.value)| == 1)
  {
    var uuid, port := m.instance.value, m.port.value;
    var o := Attach(w, m);
    AttachDelivers(w, m);
    assert ServerHasUuid(w.db, s.id, uuid) && Born(s.id, w.session, w.minted);
    hide Attach, Keyed, Unborn, ServerHasUuid;
    if OnHost(w.db, port.addr, uuid) != [] {
      assert IpsGrow(before, w.db, port.addr, uuid);
    } else if Delivered(w, m, port, s.id, o) {
      DeliveredSound(w, m, port, s.id, o);
      DeliveredConverges(before, w, m, s, o);
    }
  }

  lemma DeliveredConverges(before: Db, w: World, m: AttachMsg, s: Server, o: Outcome)
    requires Sound(w) && m.instance.Some? && m.port.Some? && ServerHasUuid(w.db, s.id, m.instance.value)
    requires OnHost(w.db, m.port.value.addr, m.instance.value) == []
    requires Converging(before, w.db, m, s.id) && Delivered(w, m, m.port.value, s.id, o)
    ensures Converging(before, o.w.db, m, s.id)
    ensures o.status.Returned? ==> |OnHost(o.w.db, m.port.value.addr, m.instance.value)| == 1
  {
    var uuid, port := m.instance.value, m.port.value;
    var id := FreshId(w);
    var carded := Carded(w.db, m, port.mac, s.id, id);
    var card := CardKey(w.db, port.mac, s.id, id);
    var grown := MintedWithCard(w.db, port.mac, s.id, w.minted);
    var used := UsedKinds(ViewOf(w.db, s.id));
    CardedConverges(before, w.db, m, s.id, w.session, w.minted);
    CardedReady(w.db, m, port, s.id, uuid, w.session, w.minted);
    hide Carded, CardKey, ViewOf, Choose, UsedKinds, Keyed, Unborn, Commit, Converging, OnHost, ServerHasUuid, EndpointOnUuid, MintedWithCard, NewIp;
    if AddsIp(carded, o.w.db, card, port.addr, used, Id(w.session, grown)) {
      var prefix :| o.w.db == Commit(carded, NewIp(card, port.addr, prefix, used), Id(w.session, grown));
      AddedConverges(before, carded, m, s.id, NewIp(card, port.addr, prefix, used), Id(w.session, grown));
    }
  }

  lemma ConvergingStart(db: Db, m: AttachMsg, server: Id)
    requires m.instance.Some? && m.port.Some? && OnHost(db, m.port.value.addr, m.instance.value) == []
    ensures Converging(db, db, m, server)
  {
    hide OnHost, ViewOf, Choose;
  }

  /**
   Attach converges: under every fault tape in which no probe is rejected, any
   number of deliveries adds at most one card and at most one row for the
   address; once one of them returned normally there is exactly one such row.
   */
  lemma {:induction false} AttachOnce(w: World, m: AttachMsg, s: Server, n: nat)
    requires Quiet(w) && Sound(w) && m.instance.Some? && m.port.Some?
    requires First(w.db.servers, Matching(None, Some(m.instance.value))) == Some(s)
    requires OnHost(w.db, m.port.value.addr, m.instance.value) == []
    requires Honest(Deliveries(w, m, n).w.log)
    ensures
      var h := Deliveries(w, m, n);
      && Converging(w.db, h.w.db, m, s.id) && Sound(h.w) && Quiet(h.w)
      && (h.returned ==> |OnHost(h.w.db, m.port.value.addr, m.instance.value)| == 1)
  {
    hide Attach, ViewOf, Keyed, Unborn, OnHost, Choose, Honest;
    if n == 0 {
      ConvergingStart(w.db, m, s.id);
    } else {
      var h := Deliveries(w, m, n - 1);
      HonestPrefix(h.w.log, Deliveries(w, m, n).w.log);
      AttachOnce(w, m, s, n - 1);
      hide CardsGrow, IpsGrow;
      DeliveryConverges(w.db, h.w, m, s);
      if h.returned && OnHost(h.w.db, m.port.value.addr, m.instance.value) != [] {
        AttachDelivers(h.w, m);
      }
    }
  }

  /** Once attached, no delivery changes anything, whatever the faults. */
  lemma {:induction false} AttachedStays(w: World, m: AttachMsg, n: nat)
    requires Quiet(w) && Sound(w) && m.instance.Some? && m.port.Some?
    requires OnHost(w.db, m.port.value.addr, m.instance.value) != []
    requires Honest(Deliveries(w, m, n).w.log)
    ensures
      var h := Deliveries(w, m, n);
      h.w.db == w.db && h.w.minted == w.minted && Quiet(h.w)
  {
    hide Attach, Delivered, OnHost, ViewOf, Keyed, Unborn, Honest, Choose;
    if n > 0 {
      var h := Deliveries(w, m, n - 1);
      HonestPrefix(h.w.log, Deliveries(w, m, n).w.log);
      AttachedStays(w, m, n - 1);
      AttachDelivers(h.w, m);
    }
  }

  /**
   The hypothesis on the probe is needed: whenever the address insert lands with
   its reply lost and the probe that follows is rejected, the swallowed rejection
   reads as "not there" and the address is inserted a second time.
   */
  lemma SwallowedProbeInsertsTwice(w: World, uuid: string, addr: string, op: Op, why: Permanent)
    requires Quiet(w) && op.InsertIp? && op.addr == addr && EndpointOnUuid(w.db, op.endpointId, uuid)
    requires OnHost(w.db, addr, uuid) == [] && w.budget >= 2
    requires |w.tape| >= 3 && w.tape[0] == ReplyLost && w.tape[1] == Rejected(why) && w.tape[2] == Replies
    ensures
      var o := AttachIp(w, uuid, addr, op);
      o.status.Returned? && |OnHost(o.w.db, addr, uuid)| == 2
  {
    hide Commit, Reads, OnHost, EndpointOnUuid;
    var sel := AttachedIp(addr, uuid);
    var lost := Exchange(w, op);
    var w1 := Nap(lost.w, 1);
    assert Attempts(w, op, sel, RAISES_IP, 1) == Issue(w, op, sel, RAISES_IP, 1);
    assert Issue(w, op, sel, RAISES_IP, 1) == Attempts(w1, op, sel, RAISES_IP, 2);
    RejectedProbe(w1, addr, uuid, why);
    var probed := Reselect(w1, sel);
    assert Attempts(w1, op, sel, RAISES_IP, 2) == Issue(probed.w, op, sel, RAISES_IP, 2);
    InsertedAgain(w.db, op, addr, uuid, FreshId(w), FreshId(w1));
  }

  lemma RejectedProbe(w: World, addr: string, uuid: string, why: Permanent)
    requires Quiet(w) && w.tape != [] && w.tape[0] == Rejected(why)
    ensures
      var t := Reselect(w, AttachedIp(addr, uuid));
      && t.answer == Got(Nothing) && t.w.db == w.db && t.w.tape == w.tape[1..] && t.w.minted == w.minted && Quiet(t.w)
      && t.w.session == w.session && t.w.budget == w.budget
  {
    hide Commit, Reads;
    assert Attempts(w, SelectAttachedIp(addr, uuid), NoSelector, PROBE, 1)
        == Issue(w, SelectAttachedIp(addr, uuid), NoSelector, PROBE, 1);
  }

  lemma InsertedAgain(db: Db, op: Op, addr: string, uuid: string, id: Id, other: Id)
    requires op.InsertIp? && op.addr == addr && EndpointOnUuid(db, op.endpointId, uuid) && OnHost(db, addr, uuid) == []
    ensures |OnHost(Commit(Commit(db, op, id), op, other), addr, uuid)| == 2
  {
    IpDetected(db, op, addr, uuid);
    var db1 := Commit(db, op, id);
    var db2 := Commit(db1, op, other);
    var row := Ip(other, op.endpointId, op.addr, op.kind, op.prefix);
    FilterSame(db1.ips, AttachedTo(db1, addr, uuid), AttachedTo(db2, addr, uuid));
    FilterSnoc(db1.ips, row, AttachedTo(db2, addr, uuid));
    assert EndpointOnUuid(db2, op.endpointId, uuid);
  }
}
