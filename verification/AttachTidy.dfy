/** Attach and the uniqueness of endpoint names and scarce kinds: what holds under every tape, and exactly when the rest does. */
module AttachTidy {
  import opened Basics
  import opened BondNames
  import opened Cmdb
  import opened Planning
  import opened Retry
  import opened RetryProofs
  import opened StoreFacts
  import opened Attachments
  import opened AttachProofs
  import opened AttachConverges
  import opened Invariants
  import opened Tapes
  import opened EveryTape
  import opened AttachExactly

  /** Distinct and fresh keys, and nobody else on the store. */
  ghost predicate Steady(w: World) { Quiet(w) && Sound(w) }

  // -- the card --------------------------------------------------------------------------------

  lemma FreshName(db: Db, m: AttachMsg, mac: Option<string>, server: Id)
    ensures NameFree(db, server, NewEndpoint(server, m, mac, ViewOf(db, server)).name)
  {
    NameIsFree(db, m, mac, server);
    hide ViewOf, NextBond;
    assert forall e :: e in db.endpoints ==> !Cmdb.Named(server, NewEndpoint(server, m, mac, ViewOf(db, server)).name)(e);
  }

  lemma FilledTidy(db: Db, m: AttachMsg, mac: Option<string>, v: EndpointView)
    ensures Tidier(db, FilledIn(db, m, mac, v))
    ensures forall s, c :: CardOn(FilledIn(db, m, mac, v), s, c) <==> CardOn(db, s, c)
  {
    var db' := FilledIn(db, m, mac, v);
    TidyFilled(db, db');
    SameCardsOn(db, db');
  }

  lemma SameCardsOn(db: Db, db': Db)
    requires |db'.endpoints| == |db.endpoints|
    requires forall i :: 0 <= i < |db.endpoints| ==>
      db'.endpoints[i].id == db.endpoints[i].id && db'.endpoints[i].serverId == db.endpoints[i].serverId
    ensures forall s, c :: CardOn(db', s, c) <==> CardOn(db, s, c)
  {
    forall s, c ensures CardOn(db', s, c) <==> CardOn(db, s, c) {
      if CardOn(db', s, c) {
        var e :| e in db'.endpoints && e.id == c && e.serverId == s;
        var i :| 0 <= i < |db'.endpoints| && db'.endpoints[i] == e;
        assert db.endpoints[i] in db.endpoints;
      }
      if CardOn(db, s, c) {
        var e :| e in db.endpoints && e.id == c && e.serverId == s;
        var i :| 0 <= i < |db.endpoints| && db.endpoints[i] == e;
        assert db'.endpoints[i] in db'.endpoints;
      }
    }
  }

  /** A kind not used by any address in the view is free on the server. */
  lemma UnusedIsFree(db: Db, server: Id, kind: Option<string>)
    requires kind !in UsedKinds(ViewOf(db, server))
    ensures KindFree(db, server, kind)
  {
    ViewNames(db, server);
    var view := ViewOf(db, server);
    hide ViewOf;
    forall ip | ip in db.ips && CardOn(db, server, ip.endpointId) ensures ip.kind in UsedKinds(view) {
      var e :| e in db.endpoints && e.id == ip.endpointId && e.serverId == server;
      var v := EndpointView(e, Filter(db.ips, OnEndpoint(e.id)));
      assert v in view && ip in v.ips;
    }
  }

  /** Putting the card in place: still tidy, the card is on the server, and no kind is used up. */
  lemma CardedTidy(db: Db, m: AttachMsg, mac: Option<string>, server: Id, session: nat, minted: nat)
    requires Unborn(db, session, minted)
    ensures
      var id := Id(session, minted);
      var carded := Carded(db, m, mac, server, id);
      && Tidier(db, carded) && CardOn(carded, server, CardKey(db, mac, server, id))
      && forall kind :: KindFree(db, server, kind) ==> KindFree(carded, server, kind)
  {
    var id := Id(session, minted);
    match Choose(ViewOf(db, server), mac)
    case Some(v) =>
      ViewNames(db, server);
      FilledTidy(db, m, mac, v);
      assert CardOn(db, server, v.row.id);
      hide ViewOf, NamesUnique, KindsUnique, CardOn;
    case None =>
      var op := NewEndpoint(server, m, mac, ViewOf(db, server));
      FreshName(db, m, mac, server);
      TidyNewCard(db, op, session, minted);
      NewCardKinds(db, op, session, minted);
      hide ViewOf, NamesUnique, KindsUnique;
  }

  lemma NewCardKinds(db: Db, op: Op, session: nat, minted: nat)
    requires op.InsertEndpoint? && Unborn(db, session, minted)
    ensures
      var db' := Commit(db, op, Id(session, minted));
      CardOn(db', op.serverId, Id(session, minted)) && forall kind :: KindFree(db, op.serverId, kind) ==> KindFree(db', op.serverId, kind)
  {
    var id := Id(session, minted);
    var db' := Commit(db, op, id);
    assert Endpoint(id, op.serverId, op.name, op.mac, op.notes) in db'.endpoints;
    forall ip | ip in db.ips ensures CardOn(db', op.serverId, ip.endpointId) ==> CardOn(db, op.serverId, ip.endpointId) {
      OldCards(db, db', id, ip);
    }
  }

  // -- the address ---------------------------------------------------------------------------------

  /** Rows of a kind that is not scarce, or one row of a kind still free. */
  ghost predicate KindFits(db: Db, server: Id, op: Op, k: nat)
    requires op.InsertIp?
  {
    Scarce(op.kind) ==> k == 0 || (k == 1 && KindFree(db, server, op.kind))
  }

  lemma {:induction false} RowsTidy(db: Db, server: Id, op: Op, session: nat, from: nat, k: nat)
    requires op.InsertIp? && Keyed(db) && Unborn(db, session, from) && Born(op.endpointId, session, from)
    requires CardOn(db, server, op.endpointId)
    ensures
      var db' := db.(ips := db.ips + IpRows(op, session, from, k));
      && (NamesUnique(db) ==> NamesUnique(db')) && (KindsUnique(db) && KindFits(db, server, op, k) ==> KindsUnique(db'))
    decreases k
  {
    hide Keyed, Unborn, KindsUnique, CardOn, NamesUnique, KindFree;
    if k == 0 {
      assert db.ips + [] == db.ips;
    } else {
      var next := RowTidy(db, server, op, session, from, k);
      RowsTidy(next, server, op, session, from + 1, k - 1);
      assert next.ips + IpRows(op, session, from + 1, k - 1) == db.ips + IpRows(op, session, from, k);
    }
  }

  /** The first of `k` rows. */
  lemma RowTidy(db: Db, server: Id, op: Op, session: nat, from: nat, k: nat) returns (next: Db)
    requires op.InsertIp? && Keyed(db) && Unborn(db, session, from) && Born(op.endpointId, session, from)
    requires CardOn(db, server, op.endpointId) && k > 0
    ensures next == db.(ips := db.ips + [Ip(Id(session, from), op.endpointId, op.addr, op.kind, op.prefix)])
    ensures Keyed(next) && Unborn(next, session, from + 1) && Born(op.endpointId, session, from + 1) && CardOn(next, server, op.endpointId)
    ensures NamesUnique(db) ==> NamesUnique(next)
    ensures KindsUnique(db) && KindFits(db, server, op, k) ==> KindsUnique(next) && KindFits(next, server, op, k - 1)
  {
    next := Commit(db, op, Id(session, from));
    assert next == db.(ips := db.ips + [Ip(Id(session, from), op.endpointId, op.addr, op.kind, op.prefix)]);
    hide Commit, KindsUnique, NamesUnique, KindFree;
    CommitSound(db, op, session, from);
    CardStaysOn(db, next, server, op.endpointId);
    SameNames(db, next);
    hide Keyed, Unborn, CardOn;
    if KindFits(db, server, op, k) { TidyNewIp(db, op, Id(session, from), server); }
  }

  lemma CardStaysOn(db: Db, db': Db, server: Id, card: Id)
    requires db'.endpoints == db.endpoints && CardOn(db, server, card)
    ensures CardOn(db', server, card)
  {
  }

  lemma SameNames(db: Db, db': Db)
    requires db'.endpoints == db.endpoints
    ensures NamesUnique(db) <==> NamesUnique(db')
  {
  }

  lemma DealtTidy(w: World, m: AttachMsg, port: AttachPort, server: Id, o: Outcome, k: nat, op: Op)
    requires Sound(w) && Born(server, w.session, w.minted) && Dealt(w, m, port, server, o, k, op)
    ensures NamesUnique(w.db) ==> NamesUnique(o.w.db)
    ensures KindsUnique(w.db) && (k <= 1 || !Scarce(op.kind)) ==> KindsUnique(o.w.db)
  {
    hide Carded, CardKey, ViewOf, Choose, UsedKinds, Keyed, Unborn, MintedWithCard, NamesUnique, KindsUnique, CardOn, KindFree, IpRows, StorePrefix;
    var id := FreshId(w);
    var carded := Carded(w.db, m, port.mac, server, id);
    var grown := MintedWithCard(w.db, port.mac, server, w.minted);
    var used := UsedKinds(ViewOf(w.db, server));
    CardedTidy(w.db, m, port.mac, server, w.session, w.minted);
    CardedSound(w.db, m, port.mac, server, w.session, w.minted);
    forall kind | kind !in used ensures KindFree(carded, server, kind) { UnusedIsFree(w.db, server, kind); }
    assert Scarce(op.kind) ==> op.kind !in used;
    hide Commit, NewIp;
    if o.w.db != w.db {
      RowsTidy(carded, server, op, w.session, grown, k);
    }
  }

  /** Without a refused probe, or with one attempt, a delivery lands its address at most once. */
  lemma OneRow(w: World, m: AttachMsg, s: Server, o: Outcome, k: nat, op: Op)
    requires m.instance.Some? && m.port.Some? && Result(w, m, o)
    requires Dealt(w, m, m.port.value, s.id, o, k, op) && o.w.db != w.db
    requires First(w.db.servers, Matching(None, Some(m.instance.value))) == Some(s)
    ensures k <= 1
  {
    hide Carded, CardKey, ViewOf, Choose, UsedKinds, NewIp, AddsIp, OnHost, First, Matching;
  }

  /**
   One delivery: unique endpoint names under every tape; unique scarce kinds when no
   probe was refused, or with one attempt.
   */
  lemma AttachSteady(w: World, m: AttachMsg)
    requires Steady(w)
    ensures
      var w' := Attach(w, m).w;
      && Steady(w')
      && (NamesUnique(w.db) ==> NamesUnique(w'.db))
      && (KindsUnique(w.db) && (Honest(w'.log) || Tries(w) == 1) ==> KindsUnique(w'.db))
  {
    hide Attach, Dealt, NamesUnique, KindsUnique, First, Matching, Result, Honest, Keyed;
    var k, op := AttachDealt(w, m);
    var o := Attach(w, m);
    if m.instance.Some? && m.port.Some? {
      var first := First(w.db.servers, Matching(None, Some(m.instance.value)));
      if first.Some? {
        var s := first.value;
        FoundServer(w.db, m.instance.value, s, w.session, w.minted);
        hide Unborn;
        DealtSound(w, m, m.port.value, s.id, o, k, op);
        DealtTries(w, m, m.port.value, s.id, o, k, op);
        DealtTidy(w, m, m.port.value, s.id, o, k, op);
        if Honest(o.w.log) && o.w.db != w.db {
          AttachDelivers(w, m);
          OneRow(w, m, s, o, k, op);
        }
      }
    }
  }

  // -- exactly when scarce kinds stay unique -----------------------------------------------------------

  lemma TwoOfAKind(db: Db, server: Id, op: Op, session: nat, from: nat)
    requires op.InsertIp? && CardOn(db, server, op.endpointId) && Scarce(op.kind)
    ensures !KindsUnique(db.(ips := db.ips + IpRows(op, session, from, 2)))
  {
    var rows := IpRows(op, session, from, 2);
    var db' := db.(ips := db.ips + rows);
    RowsAreAll(op, session, from, 2);
    var i := |db.ips|;
    CardStaysOn(db, db', server, op.endpointId);
    assert db'.ips[i] == rows[0] && db'.ips[i + 1] == rows[1];
    assert SameServer(db', db'.ips[i], db'.ips[i + 1]);
  }

  lemma TwiceTheKind(w: World, m: AttachMsg, s: Server)
    requires Found(w, m, s) && Tries(w) >= 2 && Scarce(IpOp(w, m, s.id).kind)
    ensures !KindsUnique(Attach(w.(tape := Lead(w, m, s.id) + [ReplyLost, Rejected(DataError), Replies]), m).w.db)
  {
    TwiceInOne(w, m, s);
    Reaches(w, m, s, []);
    CardedTidy(w.db, m, m.port.value.mac, s.id, w.session, w.minted);
    hide Reached, Lead, Attach, AttachIp, Carded, CardKey, MintedWithCard, ViewOf, UsedKinds, StorePrefix, NewIp, Keyed, Unborn, First, Matching, IpRows, OnHost, CardOn, KindsUnique, NamesUnique, KindFree;
    var r := Reached(w, m, s.id);
    TwoOfAKind(r.db, s.id, IpOp(w, m, s.id), r.session, r.minted);
  }

  /** The kind a delivery may write is the one the store leads to, or none at all. */
  lemma DealtKind(w: World, m: AttachMsg, s: Server, o: Outcome, k: nat, op: Op)
    requires m.instance.Some? && m.port.Some? && Dealt(w, m, m.port.value, s.id, o, k, op)
    ensures op.kind == None || op.kind == IpOp(w, m, s.id).kind
  {
    hide Carded, CardKey, ViewOf, UsedKinds, StorePrefix, IpRows;
  }

  /**
   Exactly when a delivery keeps scarce kinds unique under every tape: with one attempt,
   or where the address would be given no scarce kind.
   */
  lemma KindsExactly(w: World, m: AttachMsg, s: Server)
    requires Found(w, m, s) && KindsUnique(w.db)
    ensures
      (forall tape: seq<Fault> :: KindsUnique(Attach(w.(tape := tape), m).w.db))
      <==> Tries(w) == 1 || !Scarce(IpOp(w, m, s.id).kind)
  {
    hide Attach, KindsUnique, NamesUnique, IpOp, Lead, First, Matching;
    StartAnywhere(w, m, s);
    if Tries(w) == 1 || !Scarce(IpOp(w, m, s.id).kind) {
      forall tape: seq<Fault> ensures KindsUnique(Attach(w.(tape := tape), m).w.db) {
        SameIpOp(w, tape, m, s);
        KindsKept(w.(tape := tape), m, s);
      }
    } else {
      TwiceTheKind(w, m, s);
    }
  }

  lemma SameIpOp(w: World, tape: seq<Fault>, m: AttachMsg, s: Server)
    requires m.instance.Some? && m.port.Some?
    ensures IpOp(w.(tape := tape), m, s.id) == IpOp(w, m, s.id)
  {
    hide CardKey, ViewOf, UsedKinds, StorePrefix, NewIp;
  }

  lemma KindsKept(w: World, m: AttachMsg, s: Server)
    requires Found(w, m, s) && KindsUnique(w.db) && (Tries(w) == 1 || !Scarce(IpOp(w, m, s.id).kind))
    ensures KindsUnique(Attach(w, m).w.db)
  {
    hide Attach, Dealt, KindsUnique, NamesUnique, IpOp, First, Matching, Keyed;
    var k, op := AttachDealt(w, m);
    FoundServer(w.db, m.instance.value, s, w.session, w.minted);
    hide Unborn;
    DealtTries(w, m, m.port.value, s.id, Attach(w, m), k, op);
    DealtKind(w, m, s, Attach(w, m), k, op);
    DealtTidy(w, m, m.port.value, s.id, Attach(w, m), k, op);
  }
}
