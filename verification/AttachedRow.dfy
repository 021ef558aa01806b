/** The rows a returned attach leaves, under every tape: its endpoint, mac and notes included, and its address. */
module AttachedRow {
  import opened Basics
  import opened BondNames
  import opened Cmdb
  import opened Retry
  import opened RetryProofs
  import opened StoreFacts
  import opened Attachments
  import opened AttachProofs
  import opened AttachConverges
  import opened AttachExactly
  import opened EveryTape

  // -- which endpoint --------------------------------------------------------------------------

  /** A text column that holds something. */
  predicate Set(s: Option<string>) { s.Some? && s.value != "" }

  /** A column that is filled in only where it holds nothing. */
  function KeptOr(was: Option<string>, now: Option<string>): Option<string> {
    if Set(was) || !Set(now) then was else now
  }

  predicate Knows(e: Endpoint, server: Id, mac: Option<string>) { e.serverId == server && Set(mac) && e.mac == mac }

  predicate Bare(db: Db, e: Endpoint, server: Id) { e.serverId == server && !HasIps(db, e.id) && !Set(e.mac) }

  /** The endpoint to reuse: the first of the server that has this mac; when none has, the first without mac and address. */
  ghost predicate Picks(db: Db, server: Id, mac: Option<string>, i: nat) {
    && i < |db.endpoints|
    && if exists e :: e in db.endpoints && Knows(e, server, mac)
       then Knows(db.endpoints[i], server, mac) && forall j :: 0 <= j < i ==> !Knows(db.endpoints[j], server, mac)
       else Bare(db, db.endpoints[i], server) && forall j :: 0 <= j < i ==> !Bare(db, db.endpoints[j], server)
  }

  ghost predicate PicksNone(db: Db, server: Id, mac: Option<string>) {
    forall e :: e in db.endpoints ==> !Knows(e, server, mac) && !Bare(db, e, server)
  }

  ghost predicate NumberUsed(db: Db, server: Id, number: nat) {
    exists e :: e in db.endpoints && e.serverId == server && BondNumber(e.name) == Some(number)
  }

  /** The lowest bond name no endpoint of the server holds. */
  ghost predicate LeastFreeName(db: Db, server: Id, name: string) {
    exists n: nat :: name == "bond" + Dec(n) && !NumberUsed(db, server, n) && forall k: nat :: k < n ==> NumberUsed(db, server, k)
  }

  /** The endpoints after a returned attach: number `i` reused and filled in, or a new one under the lowest free name. */
  ghost predicate CardRow(before: Db, after: seq<Endpoint>, server: Id, mac: Option<string>, network: Option<string>, id: Id, i: nat) {
    if i < |before.endpoints| then
      && Picks(before, server, mac, i)
      && var e := before.endpoints[i];
         after == before.endpoints[i := Endpoint(e.id, e.serverId, e.name, KeptOr(e.mac, mac), KeptOr(e.notes, network))]
    else
      && i == |before.endpoints| && PicksNone(before, server, mac) && |after| == i + 1
      && LeastFreeName(before, server, after[i].name)
      && after == before.endpoints + [Endpoint(id, server, after[i].name, KeptOr(None, mac), KeptOr(None, network))]
  }

  // -- which address ------------------------------------------------------------------------------

  /** A `be` or `fe` address of this server. */
  ghost predicate KindUsed(db: Db, server: Id, kind: string) {
    exists e, ip :: e in db.endpoints && e.serverId == server && ip in db.ips && ip.endpointId == e.id && ip.kind == Some(kind)
  }

  /** The kind of a new address: its prefix's, if that is `be` or `fe` and the server has none yet; else `int`. */
  ghost function KindFor(db: Db, server: Id, kind: string): string {
    if (kind == "be" || kind == "fe") && !KindUsed(db, server, kind) then kind else "int"
  }

  /** One row of this address on this endpoint, with the prefix's key and kind, or with neither. */
  ghost predicate AddressRow(before: Db, server: Id, ip: Ip, endpoint: Id, addr: string, prefix: Option<Prefix>) {
    && ip.endpointId == endpoint && ip.addr == addr
    && match prefix
       case None => ip.prefix == None && ip.kind == None
       case Some(p) => ip.prefix == Some(p.id) && ip.kind == Some(KindFor(before, server, p.kind))
  }

  // -- choosing ---------------------------------------------------------------------------------------

  lemma FirstMapped<S(!new), T(!new)>(s: seq<S>, p: S -> bool, f: S -> T, q: T -> bool) returns (i: nat)
    ensures FirstAt(s, Both(p, On(f, q)), i)
    ensures First(Map(Filter(s, p), f), q) == if i < |s| then Some(f(s[i])) else None
  {
    hide First, Map, Filter;
    FirstOfMap(Filter(s, p), f, q);
    FirstOfFilter(s, p, On(f, q));
    i := FirstIndex(s, Both(p, On(f, q)));
  }

  function Viewed(db: Db): Endpoint -> EndpointView { (e: Endpoint) => EndpointView(e, Filter(db.ips, OnEndpoint(e.id))) }

  lemma ViewedIps(db: Db, e: Endpoint)
    ensures Viewed(db)(e).ips == [] <==> !HasIps(db, e.id)
  {
    var ips := Filter(db.ips, OnEndpoint(e.id));
    if ips != [] {
      assert ips[0] in ips;
    } else {
      assert forall ip :: ip in db.ips ==> ip !in ips;
    }
  }

  lemma ViewIs(db: Db, server: Id)
    ensures ViewOf(db, server) == Map(Filter(db.endpoints, OnServer(server)), Viewed(db))
  {
    hide Filter, Map;
    MapEqual(Filter(db.endpoints, OnServer(server)), Viewed(db), (e: Endpoint) => EndpointView(e, Filter(db.ips, OnEndpoint(e.id))));
  }

  lemma KnownAt(db: Db, server: Id, mac: Option<string>) returns (i: nat)
    ensures i <= |db.endpoints| && forall j :: 0 <= j < i ==> !Knows(db.endpoints[j], server, mac)
    ensures i < |db.endpoints| ==> Knows(db.endpoints[i], server, mac)
    ensures First(ViewOf(db, server), ByMac(mac)) == if i < |db.endpoints| then Some(Viewed(db)(db.endpoints[i])) else None
  {
    ViewIs(db, server);
    hide ViewOf, Filter, Map, First;
    i := FirstMapped(db.endpoints, OnServer(server), Viewed(db), ByMac(mac));
    forall e: Endpoint ensures Both(OnServer(server), On(Viewed(db), ByMac(mac)))(e) == Knows(e, server, mac) { }
  }

  lemma BareAt(db: Db, server: Id) returns (i: nat)
    ensures i <= |db.endpoints| && forall j :: 0 <= j < i ==> !Bare(db, db.endpoints[j], server)
    ensures i < |db.endpoints| ==> Bare(db, db.endpoints[i], server)
    ensures First(ViewOf(db, server), Orphan()) == if i < |db.endpoints| then Some(Viewed(db)(db.endpoints[i])) else None
  {
    ViewIs(db, server);
    hide ViewOf, Filter, Map, First, HasIps;
    i := FirstMapped(db.endpoints, OnServer(server), Viewed(db), Orphan());
    forall e: Endpoint ensures Both(OnServer(server), On(Viewed(db), Orphan()))(e) == Bare(db, e, server) { ViewedIps(db, e); }
  }

  lemma ChosenRow(db: Db, server: Id, mac: Option<string>) returns (i: nat)
    ensures
      var v := Choose(ViewOf(db, server), mac);
      if v.Some? then i < |db.endpoints| && Picks(db, server, mac, i) && v.value == Viewed(db)(db.endpoints[i])
      else i == |db.endpoints| && PicksNone(db, server, mac)
  {
    hide ViewOf, First, Knows, Bare, Viewed, ByMac, Orphan;
    i := KnownAt(db, server, mac);
    if i == |db.endpoints| {
      i := BareAt(db, server);
    } else {
      assert db.endpoints[i] in db.endpoints;
    }
  }

  // -- the endpoint in place ------------------------------------------------------------------------

  lemma ReusedRow(db: Db, m: AttachMsg, mac: Option<string>, server: Id, i: nat)
    requires Keyed(db) && i < |db.endpoints| && Picks(db, server, mac, i)
    ensures CardRow(db, FilledIn(db, m, mac, Viewed(db)(db.endpoints[i])).endpoints, server, mac, m.network, db.endpoints[i].id, i)
  {
    hide Picks, Filter;
    var e, v := db.endpoints[i], Viewed(db)(db.endpoints[i]);
    var after := FilledIn(db, m, mac, v).endpoints;
    var row := Endpoint(e.id, e.serverId, e.name, KeptOr(e.mac, mac), KeptOr(e.notes, m.network));
    forall j | 0 <= j < |after| ensures after[j] == db.endpoints[i := row][j] { }
    assert after == db.endpoints[i := row];
  }

  lemma NumbersAre(db: Db, server: Id, number: nat)
    ensures NumberUsed(db, server, number) <==> Held(Map(ViewOf(db, server), NameOf()), number)
  {
    ViewNames(db, server);
    var views := ViewOf(db, server);
    var names := Map(views, NameOf());
    hide ViewOf, Filter;
    if NumberUsed(db, server, number) {
      var e :| e in db.endpoints && e.serverId == server && BondNumber(e.name) == Some(number);
      var k :| 0 <= k < |names| && names[k] == e.name;
    }
    if Held(names, number) {
      var k :| 0 <= k < |names| && BondNumber(names[k]) == Some(number);
      assert views[k] in views && names[k] == views[k].row.name;
    }
  }

  lemma NewName(db: Db, server: Id)
    ensures LeastFreeName(db, server, NextBond(Map(ViewOf(db, server), NameOf())))
  {
    var names := Map(ViewOf(db, server), NameOf());
    hide NextBond, BondNumber, NumberUsed, Held, ViewOf, Dec;
    NextBondIsLeastFree(names);
    var n: nat :| NextBond(names) == Bond(n) && n <= |names| && !Held(names, n) && forall k: nat :: k < n ==> Held(names, k);
    NumbersAre(db, server, n);
    forall k: nat | k < n ensures NumberUsed(db, server, k) { NumbersAre(db, server, k); }
    assert Bond(n) == "bond" + Dec(n);
  }

  /** The endpoint an attach puts in place, as a row. */
  lemma CardedRow(db: Db, m: AttachMsg, mac: Option<string>, server: Id, id: Id) returns (i: nat)
    requires Keyed(db)
    ensures CardRow(db, Carded(db, m, mac, server, id).endpoints, server, mac, m.network, id, i)
    ensures i < |Carded(db, m, mac, server, id).endpoints|
    ensures Carded(db, m, mac, server, id).endpoints[i].id == CardKey(db, mac, server, id)
  {
    hide Choose, ViewOf, Picks, PicksNone, NextBond, LeastFreeName, FilledIn, Keyed;
    i := ChosenRow(db, server, mac);
    if i < |db.endpoints| {
      ReusedRow(db, m, mac, server, i);
    } else {
      NewName(db, server);
    }
  }

  lemma KindsAre(db: Db, server: Id, kind: string)
    ensures KindUsed(db, server, kind) <==> Some(kind) in UsedKinds(ViewOf(db, server))
  {
    ViewNames(db, server);
    var views := ViewOf(db, server);
    hide ViewOf;
    if KindUsed(db, server, kind) {
      var e, ip :| e in db.endpoints && e.serverId == server && ip in db.ips && ip.endpointId == e.id && ip.kind == Some(kind);
      var v := EndpointView(e, Filter(db.ips, OnEndpoint(e.id)));
      assert v in views && ip in v.ips;
    }
    if Some(kind) in UsedKinds(views) {
      var v, ip :| v in views && ip in v.ips && ip.kind == Some(kind);
      assert v.row in db.endpoints && ip in db.ips && ip.endpointId == v.row.id;
    }
  }

  lemma AddressRows(db: Db, server: Id, op: Op, endpoint: Id, addr: string, prefix: Option<Prefix>, session: nat, from: nat, k: nat)
    requires op == NewIp(endpoint, addr, prefix, UsedKinds(ViewOf(db, server)))
    ensures forall ip :: ip in IpRows(op, session, from, k) ==> AddressRow(db, server, ip, endpoint, addr, prefix)
    decreases k
  {
    hide ViewOf, UsedKinds, KindUsed;
    if k > 0 {
      AddressRows(db, server, op, endpoint, addr, prefix, session, from + 1, k - 1);
      if prefix.Some? { KindsAre(db, server, prefix.value.kind); }
    }
  }

  // -- a returned insert landed ----------------------------------------------------------------------

  lemma ProbeRow(w: World, addr: string, uuid: string)
    requires Quiet(w)
    ensures
      var t := Reselect(w, AttachedIp(addr, uuid));
      && t.w.db == w.db && t.w.minted == w.minted && Quiet(t.w)
      && (t.answer.Got? && t.answer.reply != Nothing ==> OnHost(w.db, addr, uuid) != [])
  {
    hide Attempts, Reads, OnHost;
    ProbeReads(w, addr, uuid);
    ReselectReads(w, AttachedIp(addr, uuid));
    ProbeFinds(w.db, addr, uuid);
  }

  lemma {:induction false} IssueLanded(w: World, uuid: string, op: Op, a: nat, start: nat)
    requires Quiet(w) && op.InsertIp? && 1 <= a <= Tries(w) && start <= w.minted
    requires OnHost(w.db, op.addr, uuid) == [] || start < w.minted
    ensures Issue(w, op, AttachedIp(op.addr, uuid), RAISES_IP, a).answer.Got? ==> start < Issue(w, op, AttachedIp(op.addr, uuid), RAISES_IP, a).w.minted
    decreases Tries(w) - a, 0
  {
    hide Commit, Reads, Met, Reselect, Exchange, Attempts, OnHost;
    InsertExchange(w, op);
    var sent := Exchange(w, op);
    if sent.answer.Threw? && !sent.answer.exn.Perm? && a < Tries(w) {
      AttemptLanded(Nap(sent.w, a), uuid, op, a + 1, start);
    }
  }

  /** An address insert that returns landed, now or on an earlier attempt. */
  lemma {:induction false} AttemptLanded(w: World, uuid: string, op: Op, a: nat, start: nat)
    requires Quiet(w) && op.InsertIp? && 1 <= a <= Tries(w) && start <= w.minted
    requires OnHost(w.db, op.addr, uuid) == [] || start < w.minted
    ensures Attempts(w, op, AttachedIp(op.addr, uuid), RAISES_IP, a).answer.Got? ==> start < Attempts(w, op, AttachedIp(op.addr, uuid), RAISES_IP, a).w.minted
    decreases Tries(w) - a, 1
  {
    hide Commit, Reads, Met, Reselect, Exchange, Issue, OnHost;
    if a == 1 {
      IssueLanded(w, uuid, op, a, start);
    } else {
      ProbeRow(w, op.addr, uuid);
      var found := Reselect(w, AttachedIp(op.addr, uuid));
      if found.answer.Threw? {
        if a < Tries(w) { AttemptLanded(Nap(found.w, a), uuid, op, a + 1, start); }
      } else if found.answer.reply == Nothing {
        IssueLanded(found.w, uuid, op, a, start);
      }
    }
  }

  // -- the prefix -------------------------------------------------------------------------------------

  /** No request of this run was refused. */
  ghost predicate NoneRefused(w: World, w': World)
    requires w.log <= w'.log
  {
    forall i :: |w.log| <= i < |w'.log| && w'.log[i].Sent? ==> !w'.log[i].fault.Rejected?
  }

  lemma RefusedPart(w: World, w1: World, w': World)
    requires w.log <= w1.log <= w'.log && NoneRefused(w, w')
    ensures NoneRefused(w, w1) && NoneRefused(w1, w')
  {
    assert forall i :: 0 <= i < |w1.log| ==> w1.log[i] == w'.log[i];
  }

  /** A read that replies and was not refused tells what the store holds. */
  lemma {:induction false} ReadTells(w: World, op: Op, o: Opts, a: nat)
    requires Quiet(w) && !op.Write() && 1 <= a <= Tries(w)
    ensures
      var t := Attempts(w, op, NoSelector, o, a);
      t.answer.Got? && NoneRefused(w, t.w) ==> t.answer.reply == Reads(w.db, op, FreshId(w))
    decreases Tries(w) - a
  {
    hide Reads, Commit;
    SelectOnlyReads(w.db, op, FreshId(w), FreshId(w));
    var sent, t := Exchange(w, op), Attempts(w, op, NoSelector, o, a);
    assert t == Issue(w, op, NoSelector, o, a);
    assert sent.w.log[|w.log|] == Sent(op, Fate(w), sent.answer);
    if sent.answer.Threw? && !sent.answer.exn.Perm? && a < Tries(w) {
      var next := Nap(sent.w, a);
      ReadTells(next, op, o, a + 1);
      if NoneRefused(w, t.w) { RefusedPart(w, next, t.w); }
    } else {
      assert sent.w.log <= t.w.log;
    }
  }

  lemma PrefixTold(w: World, addr: string, region: string)
    requires Quiet(w)
    ensures
      var s := AttachPrefix(w, addr, region);
      s.Fine? && NoneRefused(w, s.w) ==> s.value == StorePrefix(w.db.catalog, region, addr)
  {
    hide Commit, Attempts, First, Covering;
    var t, s := Call(w, SelectDatacenter(region), NoSelector, LOOKUP_DC), AttachPrefix(w, addr, region);
    ReadCall(w, SelectDatacenter(region), LOOKUP_DC);
    ReadTells(w, SelectDatacenter(region), LOOKUP_DC, 1);
    if NoneRefused(w, s.w) { RefusedPart(w, t.w, s.w); }
    if t.answer.Got? && t.answer.reply.DatacenterRow? {
      var o := Opts("network_prefix", false, None);
      ReadTells(t.w, SelectPrefixes(t.answer.reply.dc), o, 1);
    }
  }

  // -- the whole attach -----------------------------------------------------------------------------------

  /** The card is in place and so is at least one row for the address, under the prefix found for it. */
  ghost predicate Done(w: World, m: AttachMsg, port: AttachPort, server: Id, w': World, prefix: Option<Prefix>, k: nat)
    requires w.log <= w'.log
  {
    var id := FreshId(w);
    var carded := Carded(w.db, m, port.mac, server, id);
    var grown := MintedWithCard(w.db, port.mac, server, w.minted);
    var op := NewIp(CardKey(w.db, port.mac, server, id), port.addr, prefix, UsedKinds(ViewOf(w.db, server)));
    && k >= 1 && w'.db == carded.(ips := carded.ips + IpRows(op, w.session, grown, k))
    && MayHave(w.db.catalog, m, port, prefix) && (NoneRefused(w, w') ==> prefix == StorePrefix(w.db.catalog, m.region, port.addr))
  }

  lemma CardDone(w: World, m: AttachMsg, uuid: string, port: AttachPort, server: Id)
    requires Quiet(w) && Sound(w) && ServerHasUuid(w.db, server, uuid) && OnHost(w.db, port.addr, uuid) == []
    ensures
      var s := AttachCard(w, m, uuid, port, server, ViewOf(w.db, server));
      s.Fine? ==>
        && s.w.db == Carded(w.db, m, port.mac, server, FreshId(w)) && s.w.minted == MintedWithCard(w.db, port.mac, server, w.minted)
        && s.value == Target(CardKey(w.db, port.mac, server, FreshId(w))) && Quiet(s.w) && OnHost(s.w.db, port.addr, uuid) == []
  {
    hide ViewOf, OnHost, Carded, CardKey, MintedWithCard, AttachCard, Keyed, Unborn, ServerHasUuid, EndpointOnUuid, Extends;
    CardStage(w, m, uuid, port, server);
    CardedReady(w.db, m, port, server, uuid, w.session, w.minted);
  }

  lemma IpDone(w: World, uuid: string, addr: string, op: Op) returns (k: nat)
    requires Quiet(w) && op.InsertIp? && op.addr == addr && OnHost(w.db, addr, uuid) == []
    ensures
      var o := AttachIp(w, uuid, addr, op);
      o.status.Returned? ==> k >= 1 && o.w.db == w.db.(ips := w.db.ips + IpRows(op, w.session, w.minted, k))
  {
    hide Attempts, OnHost, IpRows, Extends;
    k := IpRetried(w, uuid, op, 1);
    AttemptLanded(w, uuid, op, 1, w.minted);
    CallIsAttempts(w, op, AttachedIp(addr, uuid), RAISES_IP);
  }

  lemma AttachOnDone(w: World, m: AttachMsg, uuid: string, port: AttachPort, server: Id) returns (prefix: Option<Prefix>, k: nat)
    requires Quiet(w) && Sound(w) && ServerHasUuid(w.db, server, uuid) && OnHost(w.db, port.addr, uuid) == []
    ensures
      var o := AttachOn(w, m, uuid, port, server, ViewOf(w.db, server));
      o.status.Returned? ==> Done(w, m, port, server, o.w, prefix, k)
  {
    hide ViewOf, OnHost, Carded, CardKey, MintedWithCard, AttachCard, AttachIp, AttachPrefix, UsedKinds, NewIp, NoneRefused, Keyed, Unborn, ServerHasUuid, IpRows, StorePrefix;
    var endpoints := ViewOf(w.db, server);
    var o := AttachOn(w, m, uuid, port, server, endpoints);
    PrefixStage(w, port.addr, m.region);
    PrefixTells(w, port.addr, m.region);
    PrefixTold(w, port.addr, m.region);
    var found := AttachPrefix(w, port.addr, m.region);
    prefix, k := None, 0;
    if o.status.Returned? && found.Fine? {
      prefix := found.value;
      CardDone(found.w, m, uuid, port, server);
      var card := AttachCard(found.w, m, uuid, port, server, endpoints);
      if card.Fine? {
        k := IpDone(card.w, uuid, port.addr, NewIp(card.value.endpoint, port.addr, prefix, UsedKinds(endpoints)));
        if NoneRefused(w, o.w) { RefusedPart(w, found.w, o.w); }
      }
    }
  }

  lemma DoneSame(w: World, w1: World, m: AttachMsg, port: AttachPort, server: Id, w': World, prefix: Option<Prefix>, k: nat)
    requires w1.db == w.db && w1.minted == w.minted && w1.session == w.session && w.log <= w1.log <= w'.log
    requires Done(w1, m, port, server, w', prefix, k)
    ensures Done(w, m, port, server, w', prefix, k)
  {
    hide Carded, CardKey, MintedWithCard, ViewOf, UsedKinds, NewIp, IpRows, StorePrefix, NoneRefused;
    if NoneRefused(w, w') { RefusedPart(w, w1, w'); }
  }

  lemma AttachDone(w: World, m: AttachMsg, s: Server) returns (prefix: Option<Prefix>, k: nat)
    requires Found(w, m, s) && OnHost(w.db, m.port.value.addr, m.instance.value) == []
    ensures
      var o := Attach(w, m);
      o.status.Returned? ==> Done(w, m, m.port.value, s.id, o.w, prefix, k)
  {
    hide First, Keyed, ViewOf;
    var uuid, port := m.instance.value, m.port.value;
    var found := Call(w, SelectServerByUuid(uuid), NoSelector, RAISES_SERVER);
    assert Reads(w.db, SelectServerByUuid(uuid), FreshId(w)) == ServerRow(s.id, ViewOf(w.db, s.id));
    FoundServer(w.db, uuid, s, w.session, w.minted);
    hide ViewOf, AttachOn, Call, Done, Reads, Commit, OnHost, Keyed, Unborn, ServerHasUuid, First;
    ReadCall(w, SelectServerByUuid(uuid), RAISES_SERVER);
    prefix, k := None, 0;
    if found.answer.Got? {
      ProbeCall(found.w, port.addr, uuid);
      NotThere(found.w, port.addr, uuid);
      var probe := Call(found.w, SelectAttachedIp(port.addr, uuid), NoSelector, PROBE);
      if probe.answer == Got(Nothing) {
        prefix, k := AttachOnDone(probe.w, m, uuid, port, s.id);
        if Attach(w, m).status.Returned? { DoneSame(w, probe.w, m, port, s.id, Attach(w, m).w, prefix, k); }
      }
    }
  }

  lemma NotThere(w: World, addr: string, uuid: string)
    requires Quiet(w) && OnHost(w.db, addr, uuid) == []
    ensures
      var t := Call(w, SelectAttachedIp(addr, uuid), NoSelector, PROBE);
      t.answer.Got? ==> t.answer.reply == Nothing
  {
    hide Attempts, Reads, OnHost;
    ProbeReads(w, addr, uuid);
    ProbeFinds(w.db, addr, uuid);
  }

  /** The rows a returned attach leaves: one endpoint put in place, and rows of the address on it. */
  ghost predicate RowsAttached(before: Db, db: Db, m: AttachMsg, server: Id, id: Id, i: nat, prefix: Option<Prefix>)
    requires m.port.Some?
  {
    var port := m.port.value;
    && db.servers == before.servers && db.rails == before.rails
    && CardRow(before, db.endpoints, server, port.mac, m.network, id, i)
    && i < |db.endpoints| && |before.ips| < |db.ips| && before.ips <= db.ips
    && (forall j :: |before.ips| <= j < |db.ips| ==> AddressRow(before, server, db.ips[j], db.endpoints[i].id, port.addr, prefix))
  }

  /**
   Every tape: a returned attach of an address the host did not have has put one endpoint in
   place. A reused one is the first with the port's mac, else the first without mac and
   address, and its mac and notes are filled in where they held nothing; otherwise it is new,
   under the lowest free bond name, with the port's mac and the network's name. The rows added
   for the address are on it, with the prefix the store has for the address, or none only
   where a request was refused, and the kind that prefix leaves free.
   */
  lemma AttachedRows(w: World, m: AttachMsg, s: Server) returns (i: nat, prefix: Option<Prefix>)
    requires Found(w, m, s) && OnHost(w.db, m.port.value.addr, m.instance.value) == []
    ensures
      var o := Attach(w, m);
      o.status.Returned? ==>
        && RowsAttached(w.db, o.w.db, m, s.id, FreshId(w), i, prefix)
        && (prefix == None || prefix == StorePrefix(w.db.catalog, m.region, m.port.value.addr))
        && (NoneRefused(w, o.w) ==> prefix == StorePrefix(w.db.catalog, m.region, m.port.value.addr))
  {
    hide Attach, OnHost, Carded, CardKey, MintedWithCard, UsedKinds, ViewOf, NewIp, StorePrefix, NoneRefused, AddressRow, CardRow, First;
    var k: nat;
    var port := m.port.value;
    prefix, k := AttachDone(w, m, s);
    i := CardedRow(w.db, m, port.mac, s.id, FreshId(w));
    CardedRest(w.db, m, port.mac, s.id, FreshId(w));
    var o := Attach(w, m);
    if o.status.Returned? {
      var key, grown := CardKey(w.db, port.mac, s.id, FreshId(w)), MintedWithCard(w.db, port.mac, s.id, w.minted);
      var op := NewIp(key, port.addr, prefix, UsedKinds(ViewOf(w.db, s.id)));
      AddressRows(w.db, s.id, op, key, port.addr, prefix, w.session, grown, k);
      var rows := IpRows(op, w.session, grown, k);
      assert forall j :: |w.db.ips| <= j < |o.w.db.ips| ==> o.w.db.ips[j] in rows;
    }
  }
}
