/** Detach undoes attach: whatever was delivered before it, in any order and under any faults. */
module UndoProofs {
  import opened Basics
  import opened BondNames
  import opened Cmdb
  import opened Planning
  import opened Retry
  import opened RetryProofs
  import opened StoreFacts
  import opened Attachments
  import opened AttachProofs
  import opened AttachConverges
  import opened EveryTape
  import opened AttachExactly
  import Create
  import opened DetachProofs
  import opened Invariants
  import opened AttachTidy
  import opened Runs

  /** Every card of this host holds an address. */
  ghost predicate AllHold(db: Db, uuid: string) {
    forall e :: e in db.endpoints && ServerHasUuid(db, e.serverId, uuid) ==> HasIps(db, e.id)
  }

  /** The same cards in the same places, except that notes may have been filled in. */
  ghost predicate SameButNotes(before: seq<Endpoint>, after: seq<Endpoint>) {
    && |before| == |after|
    && forall i :: 0 <= i < |before| ==> Fills(before[i], after[i]) && after[i].mac == before[i].mac
  }

  // -- what attach and detach deliveries keep ---------------------------------------------------------

  /** Without the address on this host, the addresses are those there were before. */
  ghost predicate IpsBack(before: Db, db: Db, addr: string, uuid: string) {
    Removed(db, addr, uuid).ips == before.ips && db.servers == before.servers && db.rails == before.rails
  }

  /** The old cards come first, up to notes, and every card after them is a bare one of this host. */
  ghost predicate CardsBack(before: Db, db: Db, uuid: string) {
    var n := |before.endpoints|;
    && n <= |db.endpoints| && SameButNotes(before.endpoints, db.endpoints[..n])
    && forall i :: n <= i < |db.endpoints| ==>
         ServerHasUuid(before, db.endpoints[i].serverId, uuid) && !HasIps(before, db.endpoints[i].id)
  }

  /** Addresses on this host, however often they landed, are what a removal takes. */
  lemma RowsRemoved(db: Db, op: Op, session: nat, from: nat, k: nat, uuid: string)
    requires op.InsertIp? && EndpointOnUuid(db, op.endpointId, uuid)
    ensures Removed(db.(ips := db.ips + IpRows(op, session, from, k)), op.addr, uuid).ips == Removed(db, op.addr, uuid).ips
  {
    var rows := IpRows(op, session, from, k);
    var db' := db.(ips := db.ips + rows);
    RowsAreAll(op, session, from, k);
    assert forall id :: EndpointOnUuid(db', id, uuid) == EndpointOnUuid(db, id, uuid);
    hide EndpointOnUuid, Filter, IpRows;
    FilterConcat(db.ips, rows, NotAttachedTo(db', op.addr, uuid));
    FilterSame(db.ips, NotAttachedTo(db, op.addr, uuid), NotAttachedTo(db', op.addr, uuid));
    FilterNone(rows, NotAttachedTo(db', op.addr, uuid));
  }

  /** Putting the card in place attaches no address and detaches none. */
  lemma CardedRemoved(db: Db, m: AttachMsg, mac: Option<string>, server: Id, addr: string, uuid: string, session: nat, minted: nat)
    requires Unborn(db, session, minted)
    ensures Removed(Carded(db, m, mac, server, Id(session, minted)), addr, uuid).ips == Removed(db, addr, uuid).ips
  {
    hide Filter, Choose, ViewOf, NextBond, Unborn, EndpointOnUuid, OnHost, Commit;
    var db' := Carded(db, m, mac, server, Id(session, minted));
    CardedRest(db, m, mac, server, Id(session, minted));
    match Choose(ViewOf(db, server), mac)
    case Some(v) =>
      FilledKeeps(db, m, mac, v, addr, uuid);
      FilterSame(db.ips, NotAttachedTo(db, addr, uuid), NotAttachedTo(db', addr, uuid));
    case None =>
      NewCardHoldsNothing(db, NewEndpoint(server, m, mac, ViewOf(db, server)), session, minted, addr, uuid);
      FilterSame(db.ips, NotAttachedTo(db, addr, uuid), NotAttachedTo(db', addr, uuid));
  }

  lemma DealtIps(before: Db, w: World, m: AttachMsg, s: Server, o: Outcome, k: nat, op: Op)
    requires Found(w, m, s) && Dealt(w, m, m.port.value, s.id, o, k, op)
    requires IpsBack(before, w.db, m.port.value.addr, m.instance.value)
    ensures IpsBack(before, o.w.db, m.port.value.addr, m.instance.value)
  {
    hide Carded, CardKey, MintedWithCard, ViewOf, UsedKinds, EndpointOnUuid, ServerHasUuid, Keyed, Unborn, IpRows, Filter, OnHost, First, Matching;
    var uuid, port := m.instance.value, m.port.value;
    FoundServer(w.db, uuid, s, w.session, w.minted);
    CardedReady(w.db, m, port, s.id, uuid, w.session, w.minted);
    CardedRest(w.db, m, port.mac, s.id, FreshId(w));
    CardedRemoved(w.db, m, port.mac, s.id, port.addr, uuid, w.session, w.minted);
    if !(o.w.db == w.db && o.w.minted == w.minted) {
      RowsRemoved(Carded(w.db, m, port.mac, s.id, FreshId(w)), op, w.session, MintedWithCard(w.db, port.mac, s.id, w.minted), k, uuid);
    }
  }

  // -- cards --------------------------------------------------------------------------------------------

  lemma SameServersAndIps(a: Db, b: Db, uuid: string)
    requires a.servers == b.servers && a.ips == b.ips
    ensures forall id :: ServerHasUuid(a, id, uuid) == ServerHasUuid(b, id, uuid)
    ensures forall id :: HasIps(a, id) == HasIps(b, id)
  {
  }

  lemma StillHeld(before: Db, db: Db, addr: string, uuid: string, id: Id)
    requires IpsBack(before, db, addr, uuid) && HasIps(before, id)
    ensures HasIps(db, id)
  {
    var ip :| ip in before.ips && ip.endpointId == id;
    assert ip in Removed(db, addr, uuid).ips;
  }

  lemma StillOn(before: Db, db: Db, uuid: string, id: Id)
    requires db.servers == before.servers
    ensures ServerHasUuid(db, id, uuid) == ServerHasUuid(before, id, uuid)
  {
  }

  /** Filling in a card that already has this mac changes notes only. */
  lemma MacStays(db: Db, m: AttachMsg, mac: Option<string>, v: EndpointView)
    requires Truthy(mac) && v.row.mac == mac
    ensures forall i :: 0 <= i < |db.endpoints| ==> FilledIn(db, m, mac, v).endpoints[i].mac == db.endpoints[i].mac
  {
  }

  /** Filling in the chosen card gives a mac only to a card of this server that holds no address. */
  lemma ChosenFills(db: Db, m: AttachMsg, mac: Option<string>, server: Id)
    requires Choose(ViewOf(db, server), mac).Some? && Keyed(db)
    ensures
      var db' := FilledIn(db, m, mac, Choose(ViewOf(db, server), mac).value);
      && |db'.endpoints| == |db.endpoints|
      && forall i :: 0 <= i < |db.endpoints| ==>
           && Fills(db.endpoints[i], db'.endpoints[i])
           && (db.endpoints[i].serverId != server || HasIps(db, db.endpoints[i].id) ==> db'.endpoints[i].mac == db.endpoints[i].mac)
  {
    var v := Choose(ViewOf(db, server), mac).value;
    FilledFills(db, m, mac, server);
    ViewNames(db, server);
    OnlyRow(db, v.row);
    hide Keyed, ViewOf, Fills;
    if Truthy(mac) && v.row.mac == mac {
      MacStays(db, m, mac, v);
    } else {
      assert v.ips == [] && forall ip :: ip in v.ips <==> ip in db.ips && ip.endpointId == v.row.id;
      forall i | 0 <= i < |db.endpoints| && (db.endpoints[i].serverId != server || HasIps(db, db.endpoints[i].id))
        ensures FilledIn(db, m, mac, v).endpoints[i].mac == db.endpoints[i].mac
      {
        if HasIps(db, db.endpoints[i].id) { var ip :| ip in db.ips && ip.endpointId == db.endpoints[i].id; }
      }
    }
  }

  /** One old card, filled in or not. */
  lemma OldCardBack(before: Db, db: Db, db': Db, server: Id, addr: string, uuid: string, i: nat)
    requires AllHold(before, uuid) && ServerHasUuid(before, server, uuid) && IpsBack(before, db, addr, uuid) && CardsBack(before, db, uuid)
    requires i < |before.endpoints| && i < |db'.endpoints| && Fills(db.endpoints[i], db'.endpoints[i])
    requires db.endpoints[i].serverId != server || HasIps(db, db.endpoints[i].id) ==> db'.endpoints[i].mac == db.endpoints[i].mac
    ensures Fills(before.endpoints[i], db'.endpoints[i]) && db'.endpoints[i].mac == before.endpoints[i].mac
  {
    var e, card := before.endpoints[i], db.endpoints[i];
    assert e in before.endpoints && db.endpoints[..|before.endpoints|][i] == card;
    if card.serverId == server { StillHeld(before, db, addr, uuid, e.id); }
    hide IpsBack, HasIps, ServerHasUuid;
  }

  /** What comes after the old cards stays bare. */
  lemma CardsBackBy(before: Db, db: Db, db': Db, server: Id, addr: string, uuid: string)
    requires AllHold(before, uuid) && ServerHasUuid(before, server, uuid) && IpsBack(before, db, addr, uuid) && CardsBack(before, db, uuid)
    requires |db'.endpoints| == |db.endpoints| && forall i :: 0 <= i < |db.endpoints| ==>
           && Fills(db.endpoints[i], db'.endpoints[i])
           && (db.endpoints[i].serverId != server || HasIps(db, db.endpoints[i].id) ==> db'.endpoints[i].mac == db.endpoints[i].mac)
    ensures CardsBack(before, db', uuid)
  {
    hide AllHold, IpsBack, HasIps, ServerHasUuid;
    forall i | 0 <= i < |before.endpoints| ensures Fills(before.endpoints[i], db'.endpoints[i]) && db'.endpoints[i].mac == before.endpoints[i].mac {
      OldCardBack(before, db, db', server, addr, uuid, i);
    }
  }

  lemma NewCardBack(before: Db, db: Db, row: Endpoint, addr: string, uuid: string, session: nat, minted: nat)
    requires Unborn(db, session, minted) && ServerHasUuid(before, row.serverId, uuid) && row.id == Id(session, minted)
    requires IpsBack(before, db, addr, uuid) && CardsBack(before, db, uuid)
    ensures CardsBack(before, db.(endpoints := db.endpoints + [row]), uuid)
  {
    hide ServerHasUuid, Fills;
    var n := |before.endpoints|;
    assert (db.endpoints + [row])[..n] == db.endpoints[..n];
    if HasIps(before, row.id) { StillHeld(before, db, addr, uuid, row.id); }
    hide HasIps;
  }

  /** Putting the card in place leaves the old cards, and only bare ones after them. */
  lemma CardedBack(before: Db, db: Db, m: AttachMsg, mac: Option<string>, server: Id, addr: string, uuid: string, session: nat, minted: nat)
    requires Keyed(db) && Unborn(db, session, minted) && AllHold(before, uuid) && ServerHasUuid(db, server, uuid)
    requires IpsBack(before, db, addr, uuid) && CardsBack(before, db, uuid)
    ensures CardsBack(before, Carded(db, m, mac, server, Id(session, minted)), uuid)
  {
    StillOn(before, db, uuid, server);
    hide Keyed, Unborn, AllHold, IpsBack, CardsBack, ViewOf, Choose, NextBond, HasIps, ServerHasUuid, FilledIn;
    match Choose(ViewOf(db, server), mac)
    case Some(v) =>
      ChosenFills(db, m, mac, server);
      CardsBackBy(before, db, FilledIn(db, m, mac, v), server, addr, uuid);
    case None =>
      var op := NewEndpoint(server, m, mac, ViewOf(db, server));
      NewCardBack(before, db, Endpoint(Id(session, minted), server, op.name, op.mac, op.notes), addr, uuid, session, minted);
  }

  lemma SameCardsBack(before: Db, a: Db, b: Db, uuid: string)
    requires CardsBack(before, a, uuid) && b.endpoints == a.endpoints
    ensures CardsBack(before, b, uuid)
  {
  }

  lemma DealtCards(before: Db, w: World, m: AttachMsg, s: Server, o: Outcome, k: nat, op: Op)
    requires Found(w, m, s) && Dealt(w, m, m.port.value, s.id, o, k, op) && AllHold(before, m.instance.value)
    requires IpsBack(before, w.db, m.port.value.addr, m.instance.value) && CardsBack(before, w.db, m.instance.value)
    ensures CardsBack(before, o.w.db, m.instance.value)
  {
    hide Carded, CardKey, MintedWithCard, ViewOf, UsedKinds, ServerHasUuid, Keyed, Unborn, IpRows, CardsBack, IpsBack, AllHold, First, Matching;
    var uuid, port := m.instance.value, m.port.value;
    FoundServer(w.db, uuid, s, w.session, w.minted);
    CardedBack(before, w.db, m, port.mac, s.id, port.addr, uuid, w.session, w.minted);
    SameCardsBack(before, if o.w.db == w.db then w.db else Carded(w.db, m, port.mac, s.id, FreshId(w)), o.w.db, uuid);
  }

  // -- any order of deliveries ------------------------------------------------------------------------------

  /** An attach and the detach that undoes it. */
  predicate Opposite(m: AttachMsg, d: DetachMsg) {
    m.instance.Some? && m.port.Some? && d.addr == Some(m.port.value.addr) && d.instance == m.instance
  }

  /** Kept by attaches and detaches alike: a detach from here restores what was before. */
  ghost predicate Undoable(before: Db, w: World, m: AttachMsg, s: Server) {
    && Found(w, m, s) && IpsBack(before, w.db, m.port.value.addr, m.instance.value)
    && (AllHold(before, m.instance.value) ==> CardsBack(before, w.db, m.instance.value))
  }

  lemma AttachUndoable(before: Db, w: World, m: AttachMsg, s: Server)
    requires Undoable(before, w, m, s)
    ensures Undoable(before, Attach(w, m).w, m, s)
  {
    hide Attach, Dealt, Keyed, Unborn, First, Matching, IpsBack, CardsBack, AllHold;
    var o := Attach(w, m);
    var k, op := AttachDealt(w, m);
    DealtIps(before, w, m, s, o, k, op);
    if AllHold(before, m.instance.value) { DealtCards(before, w, m, s, o, k, op); }
    var j := AnyDelivery(w, m, s);
  }

  lemma HeldCardsStay(before: Db, cards: seq<Endpoint>, db: Db, uuid: string)
    requires AllHold(before, uuid) && SameButNotes(before.endpoints, cards)
    requires db.servers == before.servers && forall id :: HasIps(before, id) ==> HasIps(db, id)
    ensures Filter(cards, KeptOnSweep(db, uuid)) == cards
  {
    forall e | e in cards ensures KeptOnSweep(db, uuid)(e) {
      var i :| 0 <= i < |cards| && cards[i] == e;
      assert before.endpoints[i] in before.endpoints;
      StillOn(before, db, uuid, e.serverId);
    }
    FilterAll(cards, KeptOnSweep(db, uuid));
  }

  /** What is left of the cards after the old ones is bare still. */
  lemma RestBack(before: Db, cards: seq<Endpoint>, rest: seq<Endpoint>, p: Endpoint -> bool, uuid: string)
    requires SameButNotes(before.endpoints, cards)
    requires forall e :: e in rest ==> ServerHasUuid(before, e.serverId, uuid) && !HasIps(before, e.id)
    ensures
      var all := cards + Filter(rest, p);
      && |before.endpoints| <= |all| && SameButNotes(before.endpoints, all[..|before.endpoints|])
      && forall i :: |before.endpoints| <= i < |all| ==> ServerHasUuid(before, all[i].serverId, uuid) && !HasIps(before, all[i].id)
  {
    hide HasIps, ServerHasUuid, Fills;
    var left := Filter(rest, p);
    var all := cards + left;
    assert all[..|cards|] == cards;
    forall i | |cards| <= i < |all| ensures all[i] in rest { assert all[i] == left[i - |cards|] && all[i] in left; }
    hide Filter;
  }

  /** A sweep takes none of the old cards. */
  lemma SweptBack(before: Db, db: Db, addr: string, uuid: string)
    requires AllHold(before, uuid) && CardsBack(before, db, uuid) && IpsBack(before, db, addr, uuid)
    ensures CardsBack(before, Swept(db, uuid), uuid)
  {
    hide HasIps, ServerHasUuid, Filter, AllHold, KeptOnSweep, SameButNotes;
    var n := |before.endpoints|;
    var cards, rest := db.endpoints[..n], db.endpoints[n..];
    forall id | HasIps(before, id) ensures HasIps(db, id) { StillHeld(before, db, addr, uuid, id); }
    hide IpsBack, Removed;
    assert db.servers == before.servers by { assert IpsBack(before, db, addr, uuid); SameServers(before, db, addr, uuid); }
    HeldCardsStay(before, cards, db, uuid);
    assert db.endpoints == cards + rest;
    FilterConcat(cards, rest, KeptOnSweep(db, uuid));
    RestBack(before, cards, rest, KeptOnSweep(db, uuid), uuid);
  }

  lemma SameServers(before: Db, db: Db, addr: string, uuid: string)
    requires IpsBack(before, db, addr, uuid)
    ensures db.servers == before.servers
  {
  }

  /** The store after a delivery of the detach, cut off after the removal or not. */
  lemma DetachedBack(before: Db, db: Db, addr: string, uuid: string)
    requires IpsBack(before, db, addr, uuid)
    ensures IpsBack(before, Removed(db, addr, uuid), addr, uuid) && IpsBack(before, Detached(db, addr, uuid), addr, uuid)
    ensures AllHold(before, uuid) && CardsBack(before, db, uuid) ==>
      CardsBack(before, Removed(db, addr, uuid), uuid) && CardsBack(before, Detached(db, addr, uuid), uuid)
  {
    RemovedAgain(db, addr, uuid);
    DetachResumes(db, addr, uuid);
    var removed := Removed(db, addr, uuid);
    if AllHold(before, uuid) && CardsBack(before, db, uuid) {
      SameCardsBack(before, db, removed, uuid);
      SweptBack(before, removed, addr, uuid);
    }
    hide AllHold, CardsBack, Filter;
  }

  lemma DetachUndoable(before: Db, w: World, m: AttachMsg, s: Server, d: DetachMsg)
    requires Undoable(before, w, m, s) && Opposite(m, d)
    ensures Undoable(before, Detach(w, d).w, m, s)
  {
    hide Detach, Removed, Swept, NamesUnique, KindsUnique, Keyed, Unborn, First, Matching, IpsBack, CardsBack, AllHold;
    var addr, uuid := m.port.value.addr, m.instance.value;
    DetachDelivers(w, d);
    DetachedBack(before, w.db, addr, uuid);
    RemovedSteady(w, addr, uuid);
    SweptSteady(Removed(w.db, addr, uuid), uuid, w.session, w.minted);
    SameServersLeft(w.db, addr, uuid);
  }

  lemma SameServersLeft(db: Db, addr: string, uuid: string)
    ensures Removed(db, addr, uuid).servers == db.servers && Detached(db, addr, uuid).servers == db.servers
  {
  }

  /** Any order of deliveries of an attach and of its opposite, each cut off anywhere. */
  ghost predicate BackAndForth(ms: seq<Message>, m: AttachMsg, d: DetachMsg) {
    forall x :: x in ms ==> x == AttachAddress(m) || x == DetachAddress(d)
  }

  lemma UndoableStart(w: World, m: AttachMsg, s: Server)
    requires Found(w, m, s) && OnHost(w.db, m.port.value.addr, m.instance.value) == []
    ensures Undoable(w.db, w, m, s)
  {
    NothingLeft(w.db, m.port.value.addr, m.instance.value);
    hide Filter, First, Matching, Keyed, Unborn;
  }

  lemma {:induction false} RunUndoable(w: World, m: AttachMsg, s: Server, d: DetachMsg, ms: seq<Message>)
    requires Found(w, m, s) && OnHost(w.db, m.port.value.addr, m.instance.value) == [] && Opposite(m, d) && BackAndForth(ms, m, d)
    ensures Undoable(w.db, Run(w, ms), m, s)
  {
    hide Attach, Detach, Create.CreateServer, Create.Delete, Create.Resize, Undoable, OnHost, Found;
    if ms == [] {
      UndoableStart(w, m, s);
    } else {
      var front, last := ms[..|ms| - 1], ms[|ms| - 1];
      assert last in ms && forall x :: x in front ==> x in ms;
      RunUndoable(w, m, s, d, front);
      if last == AttachAddress(m) {
        AttachUndoable(w.db, Run(w, front), m, s);
      } else {
        DetachUndoable(w.db, Run(w, front), m, s, d);
      }
    }
  }

  // -- a detach that returns ----------------------------------------------------------------------------------

  lemma HeldAt(after: Db, uuid: string, i: nat)
    requires i < |after.endpoints| && ServerHasUuid(after, after.endpoints[i].serverId, uuid)
    requires forall e :: e in after.endpoints && ServerHasUuid(after, e.serverId, uuid) ==> HasIps(after, e.id)
    ensures HasIps(after, after.endpoints[i].id)
  {
  }

  /** Where every card left holds an address, only the old cards are left. */
  lemma OnlyOldLeft(before: Db, after: Db, uuid: string)
    requires CardsBack(before, after, uuid) && after.ips == before.ips && after.servers == before.servers
    requires forall e :: e in after.endpoints && ServerHasUuid(after, e.serverId, uuid) ==> HasIps(after, e.id)
    ensures SameButNotes(before.endpoints, after.endpoints)
  {
    SameServersAndIps(before, after, uuid);
    hide HasIps, ServerHasUuid, SameButNotes;
    var n := |before.endpoints|;
    if n < |after.endpoints| {
      HeldAt(after, uuid, n);
      assert false;
    }
    assert after.endpoints[..n] == after.endpoints;
  }

  /** If the cards came back after a detach, each of them held an address all along. */
  lemma RestoredHeld(before: Db, after: Db, uuid: string)
    requires SameButNotes(before.endpoints, after.endpoints) && after.ips == before.ips && after.servers == before.servers
    requires forall e :: e in after.endpoints && ServerHasUuid(after, e.serverId, uuid) ==> HasIps(after, e.id)
    ensures AllHold(before, uuid)
  {
    SameServersAndIps(before, after, uuid);
    hide ServerHasUuid, HasIps;
    forall e | e in before.endpoints && ServerHasUuid(before, e.serverId, uuid) ensures HasIps(before, e.id) {
      var i :| 0 <= i < |before.endpoints| && before.endpoints[i] == e;
      assert after.endpoints[i] in after.endpoints;
    }
  }

  /** The addresses, the servers and the rails are those of before. */
  ghost predicate RowsBack(before: Db, after: Db) {
    after.ips == before.ips && after.servers == before.servers && after.rails == before.rails
  }

  lemma UndoneBy(before: Db, db: Db, addr: string, uuid: string)
    requires IpsBack(before, db, addr, uuid) && (AllHold(before, uuid) ==> CardsBack(before, db, uuid))
    ensures
      var after := Detached(db, addr, uuid);
      RowsBack(before, after) && (SameButNotes(before.endpoints, after.endpoints) <==> AllHold(before, uuid))
  {
    hide Filter, HasIps, ServerHasUuid, AllHold, CardsBack, SameButNotes;
    var after := Detached(db, addr, uuid);
    DetachedBack(before, db, addr, uuid);
    DetachedMeans(db, addr, uuid);
    if AllHold(before, uuid) { OnlyOldLeft(before, after, uuid); }
    if SameButNotes(before.endpoints, after.endpoints) { RestoredHeld(before, after, uuid); }
  }

  /**
   Detach undoes attach exactly on hosts whose cards all held addresses before: after any
   deliveries of the attach and of the detach, in any order and under any faults, a detach
   that returns leaves the addresses, servers and rails of before the first of them; and the
   same cards, up to notes, exactly if each card of the host held an address.
   */
  lemma UndoneExactly(w: World, m: AttachMsg, s: Server, d: DetachMsg, ms: seq<Message>)
    requires Found(w, m, s) && OnHost(w.db, m.port.value.addr, m.instance.value) == [] && Opposite(m, d) && BackAndForth(ms, m, d)
    ensures
      var o := Detach(Run(w, ms), d);
      o.status.Returned? ==>
        && RowsBack(w.db, o.w.db)
        && (SameButNotes(w.db.endpoints, o.w.db.endpoints) <==> AllHold(w.db, m.instance.value))
  {
    hide Detach, Detached, AllHold, CardsBack, IpsBack, OnHost, SameButNotes, RowsBack, First, Matching, Sound;
    var v := Run(w, ms);
    RunUndoable(w, m, s, d, ms);
    DetachDelivers(v, d);
    UndoneBy(w.db, v.db, m.port.value.addr, m.instance.value);
  }

  function Repeated(m: AttachMsg, n: nat): (r: seq<Message>)
    ensures |r| == n && forall x :: x in r ==> x == AttachAddress(m)
  {
    if n == 0 then [] else Repeated(m, n - 1) + [AttachAddress(m)]
  }

  lemma {:induction false} DeliveriesAreRuns(w: World, m: AttachMsg, n: nat)
    ensures Deliveries(w, m, n).w == Run(w, Repeated(m, n))
  {
    hide Attach, Detach, Create.CreateServer, Create.Delete, Create.Resize;
    if n > 0 {
      DeliveriesAreRuns(w, m, n - 1);
      assert Repeated(m, n)[..n - 1] == Repeated(m, n - 1);
    }
  }

  /**
   Detach undoes attach: on a host whose cards all hold addresses and that lacks this one, any
   number of deliveries of the attach - under any faults and however they ended - followed by a
   detach that returns leaves the same addresses, servers and rails, and the same cards but for notes.
   */
  lemma DetachUndoesAttach(w: World, m: AttachMsg, s: Server, d: DetachMsg, n: nat)
    requires Found(w, m, s) && OnHost(w.db, m.port.value.addr, m.instance.value) == [] && Opposite(m, d)
    requires AllHold(w.db, m.instance.value)
    ensures
      var o := Detach(Deliveries(w, m, n).w, d);
      o.status.Returned? ==> RowsBack(w.db, o.w.db) && SameButNotes(w.db.endpoints, o.w.db.endpoints)
  {
    hide Detach, Deliveries, AllHold, OnHost, SameButNotes, RowsBack, Found, Run;
    DeliveriesAreRuns(w, m, n);
    UndoneExactly(w, m, s, d, Repeated(m, n));
  }
}
