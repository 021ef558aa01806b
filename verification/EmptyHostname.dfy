/**
 A create with an empty hostname. The row of an empty hostname is not looked for before it
 is inserted, but it is looked for after an insert that got lost: another server's row may
 come back as the new one. Exactly when that gives a name or a scarce kind twice.
 */
module EmptyHostname {
  import opened Basics
  import opened BondNames
  import opened Cmdb
  import opened Planning
  import opened Retry
  import opened RetryProofs
  import opened StoreFacts
  import opened Attachments
  import opened AttachTidy
  import opened Tags
  import opened TagsProofs
  import opened Create
  import opened RecreateProofs
  import opened Invariants
  import opened NetProofs
  import opened CreateProofs
  import opened ForeignRow
  import opened Runs
  import opened Tapes
  import opened LiveProofs
  import opened RenameProofs
  import opened CleanExactly
  import opened CreateExactly

  // -- fields and state, with no faults ahead ------------------------------------------------------------

  /** An update of columns leaves cards and addresses. */
  lemma UpdateKeepsCards(w: World, ctx: Context, m: Cols, o: Opts)
    requires Quiet(w)
    ensures
      var t := UpdateRow(w, ctx, m, o);
      Quiet(t.w) && t.w.db.endpoints == w.db.endpoints && t.w.db.ips == w.db.ips
  {
    WriteCall(w, UpdateServers(Some(ctx.hostname), Some(ctx.uuid), m), o);
    hide Call, Reads;
  }

  lemma {:induction false} SmoothReplay(w: World, ctx: Context, writes: seq<FieldWrite>)
    requires Smooth(w)
    ensures
      var s := ReplayWrites(w, ctx, writes);
      s.Fine? && Smooth(s.w) && s.w.db.endpoints == w.db.endpoints && s.w.db.ips == w.db.ips
    decreases |writes|
  {
    if writes != [] {
      NoFaultUpdate(w, ctx, writes[0].mutation, WriteOpts(writes[0]));
      UpdateKeepsCards(w, ctx, writes[0].mutation, WriteOpts(writes[0]));
      hide UpdateRow;
      SmoothReplay(UpdateRow(w, ctx, writes[0].mutation, WriteOpts(writes[0])).w, ctx, writes[1..]);
    }
  }

  lemma SmoothFields(w: World, ctx: Context)
    requires Smooth(w)
    ensures
      var s := WriteFields(w, ctx);
      s.Fine? && Smooth(s.w) && s.w.db.endpoints == w.db.endpoints && s.w.db.ips == w.db.ips
  {
    hide CreateWrites, Merge, UpdateRow;
    BatchNeverEmpty(ctx, w.db.catalog.refs);
    NoFaultUpdate(w, ctx, BatchOf(w, ctx), Opts("batch", false, None));
    UpdateKeepsCards(w, ctx, BatchOf(w, ctx), Opts("batch", false, None));
    SmoothReplay(BatchSent(w, ctx).w, ctx, CreateWrites(ctx, w.db.catalog.refs));
  }

  // -- cards and addresses, with no faults ahead -----------------------------------------------------------

  /** Nothing is taken away, and no fault is ahead. */
  ghost predicate GoesOn(w: World, w': World) {
    && Smooth(w') && w.db.endpoints <= w'.db.endpoints && w.db.ips <= w'.db.ips && w'.db.catalog == w.db.catalog
  }

  lemma GoesOnTrans(a: World, b: World, c: World)
    requires GoesOn(a, b) && GoesOn(b, c)
    ensures GoesOn(a, c)
  {
  }

  /** An address no prefix covers is recorded and skipped. */
  lemma Uncovered(w: World, dc: string, card: Id, addrs: seq<string>, used: set<Option<string>>)
    requires Smooth(w) && addrs != [] && First(PrefixesOf(w.db, dc), Covering(addrs[0])).None?
    ensures
      var w1 := Recorded(NetPrefix(w, addrs[0], dc, Some(RECORDED)).w, "network_prefix");
      && Smooth(w1) && w1.db == w.db
      && PersistAddrs(w, dc, card, addrs, used) == PersistAddrs(w1, dc, card, addrs[1..], used)
  {
    NetPrefixPads(w, addrs[0], dc, Some(RECORDED), []);
    hide NetPrefix, First;
  }

  lemma {:induction false} AddrsGo(w: World, dc: string, card: Id, addrs: seq<string>, used: set<Option<string>>)
    requires Smooth(w)
    ensures
      var s := PersistAddrs(w, dc, card, addrs, used);
      s.Fine? && GoesOn(w, s.w) && s.w.db.endpoints == w.db.endpoints
    decreases |addrs|
  {
    if addrs != [] {
      match First(PrefixesOf(w.db, dc), Covering(addrs[0]))
      case None =>
        Uncovered(w, dc, card, addrs, used);
        hide PersistAddrs, NetPrefix;
        AddrsGo(Recorded(NetPrefix(w, addrs[0], dc, Some(RECORDED)).w, "network_prefix"), dc, card, addrs[1..], used);
      case Some(p) =>
        AddrReplied(w, dc, card, addrs, p, used, []);
        hide PersistAddrs, AddrHead, AddrRowOf;
        var w1 := AddrHead(w, dc, card, addrs[0], p, used);
        AddrsGo(w1, dc, card, addrs[1..], used + {AddrOp(card, addrs[0], p, used).kind});
        hide AddrOp;
        GoesOnTrans(w, w1, PersistAddrs(w, dc, card, addrs, used).w);
    }
  }

  /** Some row from number `from` on is of this kind, on this card. */
  ghost predicate KindFrom(db: Db, from: nat, kind: Option<string>, card: Id) {
    exists i :: from <= i < |db.ips| && db.ips[i].kind == kind && db.ips[i].endpointId == card
  }

  lemma KindStays(a: World, b: World, from: nat, kind: Option<string>, card: Id)
    requires KindFrom(a.db, from, kind, card) && GoesOn(a, b)
    ensures KindFrom(b.db, from, kind, card)
  {
    var i :| from <= i < |a.db.ips| && a.db.ips[i].kind == kind && a.db.ips[i].endpointId == card;
    assert b.db.ips[i] == a.db.ips[i];
  }

  lemma KindLater(db: Db, from: nat, to: nat, kind: Option<string>, card: Id)
    requires KindFrom(db, to, kind, card) && from <= to
    ensures KindFrom(db, from, kind, card)
  {
  }

  /** A scarce kind that is free is given to the first address it is planned for. */
  lemma {:induction false} AddrsKind(w: World, dc: string, card: Id, addrs: seq<string>, used: set<Option<string>>, kind: Option<string>)
    requires Smooth(w) && Scarce(kind) && kind !in used
    ensures
      var s := PersistAddrs(w, dc, card, addrs, used);
      && s.Fine? && GoesOn(w, s.w)
      && if exists a :: a in addrs && HasKind(PrefixesOf(w.db, dc), a, kind) then KindFrom(s.w.db, |w.db.ips|, kind, card) else kind !in s.value
    decreases |addrs|
  {
    AddrsGo(w, dc, card, addrs, used);
    if addrs != [] {
      var prefixes := PrefixesOf(w.db, dc);
      assert forall a :: a in addrs <==> a == addrs[0] || a in addrs[1..];
      match First(prefixes, Covering(addrs[0]))
      case None =>
        Uncovered(w, dc, card, addrs, used);
        hide PersistAddrs, NetPrefix, GoesOn, KindFrom;
        var w1 := Recorded(NetPrefix(w, addrs[0], dc, Some(RECORDED)).w, "network_prefix");
        SamePrefixes(w1.db, w.db, dc);
        AddrsKind(w1, dc, card, addrs[1..], used, kind);
      case Some(p) =>
        AddrReplied(w, dc, card, addrs, p, used, []);
        var w1, used1 := AddrHead(w, dc, card, addrs[0], p, used), used + {AddrOp(card, addrs[0], p, used).kind};
        hide PersistAddrs, AddrHead, PrefixesOf;
        SamePrefixes(w1.db, w.db, dc);
        if Some(p.kind) == kind {
          assert w1.db.ips[|w.db.ips|] == AddrRowOf(w, card, addrs[0], p, used);
          assert KindFrom(w1.db, |w.db.ips|, kind, card);
          AddrsGo(w1, dc, card, addrs[1..], used1);
          KindStays(w1, PersistAddrs(w1, dc, card, addrs[1..], used1).w, |w.db.ips|, kind, card);
          assert HasKind(prefixes, addrs[0], kind);
        } else {
          AddrsKind(w1, dc, card, addrs[1..], used1, kind);
          LaterKind(w, w1, dc, card, addrs, used1, kind);
        }
    }
  }

  lemma LaterKind(w: World, w1: World, dc: string, card: Id, addrs: seq<string>, used: set<Option<string>>, kind: Option<string>)
    requires |w.db.ips| <= |w1.db.ips|
    ensures KindFrom(PersistAddrs(w1, dc, card, addrs, used).w.db, |w1.db.ips|, kind, card) ==>
      KindFrom(PersistAddrs(w1, dc, card, addrs, used).w.db, |w.db.ips|, kind, card)
  {
    hide PersistAddrs;
  }

  /** The first card and its addresses, with no faults ahead. */
  lemma HeadGoes(w: World, dc: string, server: Id, cards: seq<Card>, taken: seq<string>, used: set<Option<string>>)
    requires Smooth(w) && cards != []
    ensures
      var name := CardName(cards[0], taken);
      var w1, s := RowHead(w, server, cards[0], name), CardHead(w, dc, server, cards[0], taken, used);
      && s.Fine? && GoesOn(w, w1) && GoesOn(w, s.w) && s.w.db.endpoints == w1.db.endpoints && w1.db.ips == w.db.ips
      && w1.db.endpoints == w.db.endpoints + [NewCard(server, cards[0], name, FreshId(w))]
      && PersistCards(w, dc, server, cards, taken, used) == PersistCards(s.w, dc, server, cards[1..], Taking(cards[0], taken), s.value)
  {
    hide PersistAddrs, PersistCards, CardName, RowHead, NewCard, Taking;
    CardReplied(w, dc, server, cards, taken, used, []);
    var w1 := RowHead(w, server, cards[0], CardName(cards[0], taken));
    AddrsGo(w1, dc, FreshId(w), cards[0].addresses, used);
    GoesOnTrans(w, w1, CardHead(w, dc, server, cards[0], taken, used).w);
  }

  lemma {:induction false} CardsGo(w: World, dc: string, server: Id, cards: seq<Card>, taken: seq<string>, used: set<Option<string>>)
    requires Smooth(w)
    ensures
      var s := PersistCards(w, dc, server, cards, taken, used);
      s.Fine? && GoesOn(w, s.w)
    decreases |cards|
  {
    if cards != [] {
      HeadGoes(w, dc, server, cards, taken, used);
      hide PersistCards, CardHead, Taking, RowHead, CardName;
      var s := CardHead(w, dc, server, cards[0], taken, used);
      CardsGo(s.w, dc, server, cards[1..], Taking(cards[0], taken), s.value);
      GoesOnTrans(w, s.w, PersistCards(w, dc, server, cards, taken, used).w);
    }
  }

  /** Some endpoint from number `from` on has this name, on this server. */
  ghost predicate NameFrom(db: Db, from: nat, name: string, server: Id) {
    exists i :: from <= i < |db.endpoints| && db.endpoints[i].name == name && db.endpoints[i].serverId == server
  }

  lemma NameStays(a: World, b: World, from: nat, name: string, server: Id)
    requires NameFrom(a.db, from, name, server) && GoesOn(a, b)
    ensures NameFrom(b.db, from, name, server)
  {
    var i :| from <= i < |a.db.endpoints| && a.db.endpoints[i].name == name && a.db.endpoints[i].serverId == server;
    assert b.db.endpoints[i] == a.db.endpoints[i];
  }

  lemma NameLater(db: Db, from: nat, to: nat, name: string, server: Id)
    requires NameFrom(db, to, name, server) && from <= to
    ensures NameFrom(db, from, name, server)
  {
  }

  /** Every planned name is given to a new endpoint. */
  lemma {:induction false} CardsName(w: World, dc: string, server: Id, cards: seq<Card>, taken: seq<string>, used: set<Option<string>>, name: string)
    requires Smooth(w) && name in EndpointNames(cards, taken)
    ensures NameFrom(PersistCards(w, dc, server, cards, taken, used).w.db, |w.db.endpoints|, name, server)
    decreases |cards|
  {
    HeadGoes(w, dc, server, cards, taken, used);
    NamesStep(cards, taken);
    hide PersistCards, CardHead, RowHead, CardName, EndpointNames, GoesOn;
    var first, s := CardName(cards[0], taken), CardHead(w, dc, server, cards[0], taken, used);
    var rest := PersistCards(s.w, dc, server, cards[1..], Taking(cards[0], taken), s.value);
    assert s.w.db.endpoints[|w.db.endpoints|] == NewCard(server, cards[0], first, FreshId(w));
    assert Smooth(s.w) by { Going(w, s.w); }
    if name == first {
      assert NameFrom(s.w.db, |w.db.endpoints|, name, server);
      CardsGo(s.w, dc, server, cards[1..], Taking(cards[0], taken), s.value);
      NameStays(s.w, rest.w, |w.db.endpoints|, name, server);
    } else {
      CardsName(s.w, dc, server, cards[1..], Taking(cards[0], taken), s.value, name);
      NameLater(rest.w.db, |w.db.endpoints|, |s.w.db.endpoints|, name, server);
    }
  }

  lemma Going(w: World, w': World)
    requires GoesOn(w, w')
    ensures Smooth(w') && |w.db.ips| <= |w'.db.ips| && |w.db.endpoints| <= |w'.db.endpoints| && w'.db.catalog == w.db.catalog
  {
  }

  /** Some address from number `from` on is of this kind, on a card of this server. */
  ghost predicate KindOnFrom(db: Db, from: nat, kind: Option<string>, server: Id) {
    exists i :: from <= i < |db.ips| && db.ips[i].kind == kind && CardOn(db, server, db.ips[i].endpointId)
  }

  lemma KindOnStays(a: World, b: World, from: nat, kind: Option<string>, card: Id, server: Id)
    requires KindFrom(a.db, from, kind, card) && CardOn(a.db, server, card) && GoesOn(a, b)
    ensures KindOnFrom(b.db, from, kind, server)
  {
    CardStays(a.db, b.db, server, card);
    hide CardOn;
    var i :| from <= i < |a.db.ips| && a.db.ips[i].kind == kind && a.db.ips[i].endpointId == card;
    assert b.db.ips[i] == a.db.ips[i];
  }

  lemma KindOnLater(db: Db, from: nat, to: nat, kind: Option<string>, server: Id)
    requires KindOnFrom(db, to, kind, server) && from <= to
    ensures KindOnFrom(db, from, kind, server)
  {
    hide CardOn;
  }

  /** A planned scarce kind that is free is given to some new address of the server. */
  lemma {:induction false} CardsKind(w: World, dc: string, server: Id, cards: seq<Card>, taken: seq<string>, used: set<Option<string>>, kind: Option<string>)
    requires Smooth(w) && kind !in used && PlansKind(PrefixesOf(w.db, dc), cards, kind)
    ensures KindOnFrom(PersistCards(w, dc, server, cards, taken, used).w.db, |w.db.ips|, kind, server)
    decreases |cards|
  {
    var prefixes := PrefixesOf(w.db, dc);
    var c, a :| c in cards && a in c.addresses && HasKind(prefixes, a, kind);
    HeadGoes(w, dc, server, cards, taken, used);
    var w1, s := RowHead(w, server, cards[0], CardName(cards[0], taken)), CardHead(w, dc, server, cards[0], taken, used);
    Going(w, w1);
    Going(w, s.w);
    SamePrefixes(w1.db, w.db, dc);
    SamePrefixes(s.w.db, w.db, dc);
    AddrsKind(w1, dc, FreshId(w), cards[0].addresses, used, kind);
    hide PersistCards, PersistAddrs, RowHead, CardName, GoesOn, KindFrom, PrefixesOf, HasKind, KindOnFrom;
    CardsGo(s.w, dc, server, cards[1..], Taking(cards[0], taken), s.value);
    var rest := PersistCards(s.w, dc, server, cards[1..], Taking(cards[0], taken), s.value);
    if exists b :: b in cards[0].addresses && HasKind(prefixes, b, kind) {
      NewOn(w, s.w, server, cards[0], CardName(cards[0], taken));
      KindOnStays(s.w, rest.w, |w.db.ips|, kind, FreshId(w), server);
    } else {
      assert c != cards[0] && c in cards[1..];
      assert PlansKind(prefixes, cards[1..], kind);
      CardsKind(s.w, dc, server, cards[1..], Taking(cards[0], taken), s.value, kind);
      KindOnLater(rest.w.db, |w.db.ips|, |s.w.db.ips|, kind, server);
    }
  }

  lemma NewOn(w: World, w': World, server: Id, card: Card, name: string)
    requires w'.db.endpoints == w.db.endpoints + [NewCard(server, card, name, FreshId(w))]
    ensures CardOn(w'.db, server, FreshId(w))
  {
    assert w'.db.endpoints[|w.db.endpoints|] == NewCard(server, card, name, FreshId(w));
  }

  /** Filling in a server with no faults ahead: fields, cards and state all go through. */
  lemma FillGoes(w: World, ctx: Context, server: Id, m: CreateMsg)
    requires Smooth(w)
    ensures
      var fields := WriteFields(w, ctx);
      var net := Persist(fields.w, ctx, server, Cards(m));
      var o := Fill(w, ctx, server, Cards(m));
      && Smooth(fields.w) && fields.w.db.endpoints == w.db.endpoints && fields.w.db.ips == w.db.ips && fields.w.db.catalog == w.db.catalog
      && GoesOn(fields.w, net.w) && o.w.db.endpoints == net.w.db.endpoints && o.w.db.ips == net.w.db.ips
  {
    hide WriteFields, UpdateRow, PersistCards, Cards, FinalState, BondTaken;
    SmoothFields(w, ctx);
    var fields := WriteFields(w, ctx);
    CardsGo(fields.w, ctx.dcName, server, Cards(m), BondTaken(Cards(m)), {});
    var net := Persist(fields.w, ctx, server, Cards(m));
    UpdateKeepsCards(net.w, ctx, FinalState(ctx, net.w.errors), RECORDS_STATE);
  }

  lemma NameTwice(before: Db, db: Db, e: Endpoint)
    requires e in before.endpoints && before.endpoints <= db.endpoints && NameFrom(db, |before.endpoints|, e.name, e.serverId)
    ensures !NamesUnique(db)
  {
    var i :| 0 <= i < |before.endpoints| && before.endpoints[i] == e;
    var j :| |before.endpoints| <= j < |db.endpoints| && db.endpoints[j].name == e.name && db.endpoints[j].serverId == e.serverId;
    assert db.endpoints[i] == e;
  }

  lemma KindTwice(before: Db, db: Db, server: Id, kind: Option<string>)
    requires Scarce(kind) && !KindFree(before, server, kind) && before.endpoints <= db.endpoints && before.ips <= db.ips
    requires KindOnFrom(db, |before.ips|, kind, server)
    ensures !KindsUnique(db)
  {
    var ip :| ip in before.ips && ip.kind == kind && CardOn(before, server, ip.endpointId);
    CardStays(before, db, server, ip.endpointId);
    hide CardOn;
    var i :| 0 <= i < |before.ips| && before.ips[i] == ip;
    var j :| |before.ips| <= j < |db.ips| && db.ips[j].kind == kind && CardOn(db, server, db.ips[j].endpointId);
    assert db.ips[i] == ip && SameServer(db, db.ips[i], db.ips[j]);
  }

  // -- the tape on which the other row comes back ------------------------------------------------------------

  /** The requests up to the insert of the row, when all of them reply. */
  function ToInsert(w: World, m: CreateMsg): nat
    requires Readable(m)
  {
    var w0 := w.(tape := [], errors := []);
    var c := BuildContext(w0, m);
    Asked(w0, RemoveServer(c.w, Ctx(w, m).uuid, Ctx(w, m).hostname).w)
  }

  /** All of them reply, and the insert never arrives. */
  function ForeignTape(w: World, m: CreateMsg): seq<Fault>
    requires Readable(m)
  {
    Reps(ToInsert(w, m)) + [NotSent]
  }

  /** The insert never arrives, and the row that is found instead is taken for the new one. */
  lemma RecreateForeign(w: World, ctx: Context)
    requires Smooth(w) && Keyed(w.db) && Tries(w) >= 2 && Overlooked(w.db, ctx).Some?
    ensures
      var removed := RemoveServer(w, ctx.uuid, ctx.hostname);
      var s := Recreate(After(w, Asked(w, removed.w), [NotSent]), ctx);
      && s == Stage.Fine(s.w, Overlooked(w.db, ctx).value.id) && Smooth(s.w) && s.w.minted == w.minted
      && s.w.db == Cleared(w.db, NonEmpty(ctx.hostname), NonEmpty(ctx.uuid))
  {
    hide RemoveServer, Cleared, NewServer, First, Keyed;
    var removed := RemoveServer(w, ctx.uuid, ctx.hostname);
    RemovePads(w, ctx.uuid, ctx.hostname, [NotSent]);
    ServerRemoved(w, ctx.uuid, ctx.hostname);
    var op, q := InsertServer(NewServer(ctx)), SelectServerByHostname(ctx.hostname);
    FoundByHostname(removed.w.db, ctx, FreshId(removed.w));
    hide Call, Reads, Removing;
    Mistaken(removed.w, op, q, RAISES_SERVER_INSERT);
  }

  lemma FoundByHostname(db: Db, ctx: Context, id: Id)
    requires First(db.servers, Matching(Some(ctx.hostname), None)).Some?
    ensures Reads(db, SelectServerByHostname(ctx.hostname), id) == ServerRef(First(db.servers, Matching(Some(ctx.hostname), None)).value.id)
  {
  }

  /** The world in which the other row is filled in. */
  function ForeignWorld(w: World, m: CreateMsg): World
    requires Readable(m)
  {
    Recreate(BuildContext(w.(tape := ForeignTape(w, m), errors := []), m).w, Ctx(w, m)).w
  }

  lemma ForeignReached(w: World, m: CreateMsg)
    requires Steady(w) && Foreign(w, m).Some?
    ensures
      var v := ForeignWorld(w, m);
      && Smooth(v) && v.db.endpoints == w.db.endpoints && v.db.ips == w.db.ips && v.db.catalog == w.db.catalog
      && CreateServer(w.(tape := ForeignTape(w, m)), m) == Fill(v, Ctx(w, m), Foreign(w, m).value.id, Cards(m))
  {
    hide BuildContext, Recreate, Fill, Cards, ContextOf, RemoveServer, Overlooked;
    var w0, ctx := w.(tape := [], errors := []), Ctx(w, m);
    ContextPads(w0, m, []);
    var c := BuildContext(w0, m);
    ContextBuilt(w0, m);
    var removed := RemoveServer(c.w, ctx.uuid, ctx.hostname);
    RemovePads(c.w, ctx.uuid, ctx.hostname, []);
    var k := Asked(c.w, removed.w);
    ContextPads(w0, m, Reps(k) + [NotSent]);
    TwoPads(w0, Asked(w0, c.w), k, [NotSent]);
    RecreateForeign(c.w, ctx);
    assert w.(tape := ForeignTape(w, m)).(errors := []) == After(w0, ToInsert(w, m), [NotSent]);
    assert w.(tape := ForeignTape(w, m), errors := []) == After(w0, ToInsert(w, m), [NotSent]);
    hide Keyed, Unborn;
  }

  /** The store when the cards are placed on the other server. */
  function ForeignFields(w: World, m: CreateMsg): World
    requires Foreign(w, m).Some?
  {
    WriteFields(ForeignWorld(w, m), Ctx(w, m)).w
  }

  lemma ForeignReadable(w: World, m: CreateMsg)
    requires Foreign(w, m).Some?
    ensures Readable(m)
  {
  }

  /** On that tape the create adds its cards to the other server's. */
  lemma ForeignCards(w: World, m: CreateMsg)
    requires Steady(w) && Foreign(w, m).Some?
    ensures
      var o := Process(w.(tape := ForeignTape(w, m)), CreateInstance(m));
      var fields := ForeignFields(w, m);
      var net := Persist(fields, Ctx(w, m), Foreign(w, m).value.id, Cards(m)).w;
      && Smooth(fields) && fields.db.endpoints == w.db.endpoints && fields.db.ips == w.db.ips && fields.db.catalog == w.db.catalog
      && GoesOn(fields, net) && o.w.db.endpoints == net.db.endpoints && o.w.db.ips == net.db.ips
  {
    hide CreateServer, Fill, Cards, ForeignWorld, ForeignTape, Foreign, WriteFields, PersistCards, ContextOf, BondTaken, Attach, Detach, Delete, Resize, Steady;
    ForeignReadable(w, m);
    ForeignReached(w, m);
    FillGoes(ForeignWorld(w, m), Ctx(w, m), Foreign(w, m).value.id, m);
  }

  /** A planned name that is on the other row is given there again. */
  lemma EmptyHostnameClash(w: World, m: CreateMsg)
    requires Steady(w) && NamesExposed(w, m)
    ensures !NamesUnique(Process(w.(tape := ForeignTape(w, m)), CreateInstance(m)).w.db)
  {
    hide Process, Cards, ForeignFields, ForeignTape, Foreign, NamesUnique, PersistCards, ContextOf, EndpointNames, BondTaken, NameFrom;
    ForeignReadable(w, m);
    ForeignCards(w, m);
    var dc, fields, server := Ctx(w, m).dcName, ForeignFields(w, m), Foreign(w, m).value.id;
    var e :| e in w.db.endpoints && e.serverId == server && e.name in NamesPlanned(m);
    CardsName(fields, dc, server, Cards(m), BondTaken(Cards(m)), {}, e.name);
    var o := Process(w.(tape := ForeignTape(w, m)), CreateInstance(m));
    SameName(Persist(fields, Ctx(w, m), server, Cards(m)).w.db, o.w.db, |w.db.endpoints|, e.name, server);
    NameTwice(w.db, o.w.db, e);
  }

  lemma SameName(a: Db, b: Db, from: nat, name: string, server: Id)
    requires b.endpoints == a.endpoints && NameFrom(a, from, name, server)
    ensures NameFrom(b, from, name, server)
  {
  }

  /** A planned scarce kind that is on the other row is given there again. */
  lemma EmptyHostnameKinds(w: World, m: CreateMsg)
    requires Steady(w) && KindsExposed(w, m)
    ensures !KindsUnique(Process(w.(tape := ForeignTape(w, m)), CreateInstance(m)).w.db)
  {
    hide Process, Cards, ForeignFields, ForeignTape, Foreign, KindsUnique, PersistCards, ContextOf, BondTaken, KindOnFrom, PrefixesOf, KindFree;
    ForeignReadable(w, m);
    ForeignCards(w, m);
    var dc, fields, server := Ctx(w, m).dcName, ForeignFields(w, m), Foreign(w, m).value.id;
    var kind :| PlansKind(PrefixesOf(w.db, dc), Cards(m), kind) && !KindFree(w.db, server, kind);
    KindIsScarce(PrefixesOf(w.db, dc), Cards(m), kind);
    SamePrefixes(fields.db, w.db, dc);
    CardsKind(fields, dc, server, Cards(m), BondTaken(Cards(m)), {}, kind);
    var o := Process(w.(tape := ForeignTape(w, m)), CreateInstance(m));
    SameKind(Persist(fields, Ctx(w, m), server, Cards(m)).w.db, o.w.db, |w.db.ips|, kind, server);
    KindTwice(w.db, o.w.db, server, kind);
  }

  lemma KindIsScarce(prefixes: seq<Prefix>, cards: seq<Card>, kind: Option<string>)
    requires PlansKind(prefixes, cards, kind)
    ensures Scarce(kind)
  {
  }

  lemma SameKind(a: Db, b: Db, from: nat, kind: Option<string>, server: Id)
    requires b.endpoints == a.endpoints && b.ips == a.ips && KindOnFrom(a, from, kind, server)
    ensures KindOnFrom(b, from, kind, server)
  {
    assert forall c :: CardOn(b, server, c) == CardOn(a, server, c);
    hide CardOn;
  }

  // -- the exact conditions -------------------------------------------------------------------------------------

  lemma ExposedAnyway(w: World, tape: seq<Fault>, m: CreateMsg)
    ensures NamesExposed(w.(tape := tape), m) == NamesExposed(w, m) && KindsExposed(w.(tape := tape), m) == KindsExposed(w, m)
    ensures Steady(w.(tape := tape)) == Steady(w)
  {
    assert Foreign(w.(tape := tape), m) == Foreign(w, m);
    assert Readable(m) ==> Ctx(w.(tape := tape), m) == Ctx(w, m);
    hide Foreign, ContextOf, Cards, PlansKind, KindFree, EndpointNames, BondTaken;
  }

  /**
   Exactly when a create keeps endpoint names unique whatever the faults: unless it can be
   read, requests have a second attempt, the removal leaves a row of the message's hostname - which
   is then empty - and the oldest such row has an endpoint of a planned name.
   */
  lemma CreateNamesExactly(w: World, m: CreateMsg)
    requires Steady(w) && NamesUnique(w.db)
    ensures (forall tape: seq<Fault> :: NamesUnique(Process(w.(tape := tape), CreateInstance(m)).w.db)) <==> !NamesExposed(w, m)
  {
    hide CreateServer, NamesUnique, KindsUnique, NamesExposed, KindsExposed, Steady, Attach, Detach, Delete, Resize;
    if NamesExposed(w, m) {
      EmptyHostnameClash(w, m);
    } else {
      forall tape: seq<Fault> ensures NamesUnique(Process(w.(tape := tape), CreateInstance(m)).w.db) {
        ExposedAnyway(w, tape, m);
        CreateSteady(w.(tape := tape), m);
      }
    }
  }

  /**
   Exactly when a create keeps scarce kinds unique whatever the faults: unless it can be read,
   requests have a second attempt, the removal leaves a row of the message's hostname, and the
   oldest such row has an address of a scarce kind that a prefix plans for the message.
   */
  lemma CreateKindsExactly(w: World, m: CreateMsg)
    requires Steady(w) && KindsUnique(w.db)
    ensures (forall tape: seq<Fault> :: KindsUnique(Process(w.(tape := tape), CreateInstance(m)).w.db)) <==> !KindsExposed(w, m)
  {
    hide CreateServer, NamesUnique, KindsUnique, NamesExposed, KindsExposed, Steady, Attach, Detach, Delete, Resize;
    if KindsExposed(w, m) {
      EmptyHostnameKinds(w, m);
    } else {
      forall tape: seq<Fault> ensures KindsUnique(Process(w.(tape := tape), CreateInstance(m)).w.db) {
        ExposedAnyway(w, tape, m);
        CreateSteady(w.(tape := tape), m);
      }
    }
  }

  /**
   Exactly when re-creating the row gives back the new row whatever the faults: with one attempt,
   or when the removal leaves no row of this hostname.
   */
  lemma RowRecreatedExactly(w: World, ctx: Context)
    requires Quiet(w) && Keyed(w.db)
    ensures
      (forall tape: seq<Fault> :: Recreating(w.(tape := tape), ctx, Recreate(w.(tape := tape), ctx)))
      <==> Tries(w) == 1 || Overlooked(w.db, ctx).None?
  {
    hide Recreate, Recreating, Overlooked, Keyed, RemoveServer;
    if Tries(w) == 1 || Overlooked(w.db, ctx).None? {
      forall tape: seq<Fault> ensures Recreating(w.(tape := tape), ctx, Recreate(w.(tape := tape), ctx)) {
        RowRecreated(w.(tape := tape), ctx);
      }
    } else {
      var w0 := w.(tape := []);
      RecreateForeign(w0, ctx);
      var n := Asked(w0, RemoveServer(w0, ctx.uuid, ctx.hostname).w);
      var tape := Reps(n) + [NotSent];
      assert After(w0, n, [NotSent]) == w.(tape := tape);
      NotRecreated(w.(tape := tape), ctx, Recreate(w.(tape := tape), ctx));
    }
  }

  lemma NotRecreated(w: World, ctx: Context, s: Stage<Id>)
    requires s.Fine? && s.w.minted == w.minted
    ensures !Recreating(w, ctx, s)
  {
    hide Cleared, Removing, Inserted;
  }
}
