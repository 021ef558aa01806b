/**
 Cards and addresses written on a server that may hold some already, under every tape: what
 a create does when the row it was handed back is another server's.
 */
module ForeignRow {
  import opened Basics
  import opened BondNames
  import opened Cmdb
  import opened Planning
  import opened Retry
  import opened RetryProofs
  import opened StoreFacts
  import opened Attachments
  import opened Create
  import opened Invariants
  import opened NetProofs
  import opened LiveProofs

  // -- one insert ----------------------------------------------------------------------------------

  /** The store as it was, or with this one row more. */
  ghost predicate OnceMore(w: World, w': World, op: Op) {
    && Quiet(w') && w'.session == w.session && w'.budget == w.budget
    && ((w'.db == w.db && w'.minted == w.minted) || (w'.db == Commit(w.db, op, FreshId(w)) && w'.minted == w.minted + 1))
  }

  lemma IpOnce(w: World, card: Id, addr: string, p: Prefix, used: set<Option<string>>)
    requires Quiet(w)
    ensures
      var op := AddrOp(card, addr, p, used);
      OnceMore(w, Call(w, op, Once(SelectIp(addr, card, Some(p.id))), RECORDS_IP).w, op)
  {
    var op := AddrOp(card, addr, p, used);
    IpKeyDetected(w.db, op);
    InsertCall(w, op, Once(SelectIp(addr, card, Some(p.id))), RECORDS_IP);
    hide Call, Detects, Reads, Commit, AddrOp, Finds;
  }

  /** One card: it is there, or a card of the same server was found in its place, or nothing answered. */
  lemma CardOnce(w: World, server: Id, card: Card, name: string)
    requires Quiet(w)
    ensures
      var op := CardOp(server, card, name);
      var t := Call(w, op, CardSelector(server, card, name), RECORDS_ENDPOINT);
      && OnceMore(w, t.w, op)
      && (t.answer.Got? && t.answer.reply.EndpointRef? ==> CardOn(t.w.db, server, t.answer.reply.endpoint))
  {
    var op, sel := CardOp(server, card, name), CardSelector(server, card, name);
    var t := Call(w, op, sel, RECORDS_ENDPOINT);
    CardKeyDetected(w.db, server, card, name);
    FoundCardIsHere(w.db, server, card, name);
    FoundCardIsHere(Commit(w.db, op, FreshId(w)), server, card, name);
    NewCardIsOn(w.db, server, card, name, FreshId(w));
    hide Call, Detects, Commit, Finds, CardOn;
    InsertCall(w, op, sel, RECORDS_ENDPOINT);
  }

  lemma NewCardIsOn(db: Db, server: Id, card: Card, name: string, id: Id)
    ensures CardOn(Commit(db, CardOp(server, card, name), id), server, id)
  {
    var row := Endpoint(id, server, name, card.mac, card.name);
    assert row in Commit(db, CardOp(server, card, name), id).endpoints;
  }

  // -- names --------------------------------------------------------------------------------------------

  /** None of these names is on the server yet, and they are pairwise distinct. */
  ghost predicate NamesFit(db: Db, server: Id, names: seq<string>) {
    NamesUnique(db) && Distinct(names) && forall e :: e in db.endpoints && e.serverId == server ==> e.name !in names
  }

  lemma {:induction false} AddrsKeepCards(w: World, dc: string, card: Id, addrs: seq<string>, used: set<Option<string>>)
    requires Quiet(w)
    ensures
      var s := PersistAddrs(w, dc, card, addrs, used);
      Quiet(s.w) && s.w.db.endpoints == w.db.endpoints && s.w.db.catalog == w.db.catalog
    decreases |addrs|
  {
    if addrs != [] {
      PrefixLookup(w, addrs[0], dc);
      var prefix := NetPrefix(w, addrs[0], dc, Some(RECORDED));
      hide NetPrefix, Call, ResolveIpType;
      if prefix.Fine? && prefix.value.None? {
        AddrsKeepCards(Recorded(prefix.w, "network_prefix"), dc, card, addrs[1..], used);
      } else if prefix.Fine? {
        var p := prefix.value.value;
        IpOnce(prefix.w, card, addrs[0], p, used);
        var op := AddrOp(card, addrs[0], p, used);
        var t := Call(prefix.w, op, Once(SelectIp(addrs[0], card, Some(p.id))), RECORDS_IP);
        if t.answer.Got? { AddrsKeepCards(t.w, dc, card, addrs[1..], used + {op.kind}); }
      }
    }
  }

  lemma NameGiven(w: World, w': World, server: Id, card: Card, name: string, rest: seq<string>)
    requires NamesFit(w.db, server, [name] + rest) && OnceMore(w, w', CardOp(server, card, name))
    ensures NamesFit(w'.db, server, rest)
  {
    var names := [name] + rest;
    assert names[0] == name && names[1..] == rest;
    forall n | n in rest ensures n in names && n != name {
      var i :| 0 <= i < |rest| && rest[i] == n;
      assert names[i + 1] == n;
    }
    assert forall i :: 0 <= i < |rest| ==> rest[i] == names[i + 1];
    assert name in names;
    if w'.db != w.db {
      var row := Endpoint(FreshId(w), server, name, card.mac, card.name);
      assert w'.db.endpoints == w.db.endpoints + [row];
      assert forall e :: e in w'.db.endpoints ==> e in w.db.endpoints || e == row;
      assert forall i :: 0 <= i < |w.db.endpoints| ==> w.db.endpoints[i] in w.db.endpoints;
    }
  }

  lemma SameFit(a: Db, b: Db, server: Id, names: seq<string>)
    requires a.endpoints == b.endpoints && NamesFit(a, server, names)
    ensures NamesFit(b, server, names)
  {
  }

  /** Cards under names that are free on the server: names stay unique, whatever the tape. */
  lemma {:induction false} CardsNamed(w: World, dc: string, server: Id, cards: seq<Card>, taken: seq<string>, used: set<Option<string>>)
    requires Quiet(w) && NamesFit(w.db, server, EndpointNames(cards, taken))
    ensures
      var s := PersistCards(w, dc, server, cards, taken, used);
      Quiet(s.w) && NamesUnique(s.w.db)
    decreases |cards|
  {
    if cards != [] {
      hide PersistAddrs, Call, CardName, CardSelector, NamesFit, EndpointNames, CardOn;
      var card, name := cards[0], CardName(cards[0], taken);
      var taken' := if card.placeholder then taken + [name] else taken;
      var rest := EndpointNames(cards[1..], taken');
      NamesStep(cards, taken);
      CardOnce(w, server, card, name);
      var t := Call(w, CardOp(server, card, name), CardSelector(server, card, name), RECORDS_ENDPOINT);
      NameGiven(w, t.w, server, card, name, rest);
      FitIsUnique(t.w.db, server, rest);
      if t.answer.Got? && t.answer.reply.EndpointRef? {
        var s := PersistAddrs(t.w, dc, t.answer.reply.endpoint, card.addresses, used);
        AddrsKeepCards(t.w, dc, t.answer.reply.endpoint, card.addresses, used);
        SameFit(t.w.db, s.w.db, server, rest);
        FitIsUnique(s.w.db, server, rest);
        if s.Fine? { CardsNamed(s.w, dc, server, cards[1..], taken', s.value); }
      } else if t.answer.Got? {
        CardsNamed(t.w, dc, server, cards[1..], taken', used);
      }
    } else {
      FitIsUnique(w.db, server, EndpointNames(cards, taken));
    }
  }

  lemma FitIsUnique(db: Db, server: Id, names: seq<string>)
    requires NamesFit(db, server, names)
    ensures NamesUnique(db)
  {
  }

  // -- kinds ------------------------------------------------------------------------------------------------

  /** Some address of these cards has a prefix of this scarce kind. */
  ghost predicate PlansKind(prefixes: seq<Prefix>, cards: seq<Card>, kind: Option<string>) {
    Scarce(kind) && exists c, a :: c in cards && a in c.addresses && HasKind(prefixes, a, kind)
  }

  ghost predicate HasKind(prefixes: seq<Prefix>, addr: string, kind: Option<string>) {
    First(prefixes, Covering(addr)).Some? && kind == Some(First(prefixes, Covering(addr)).value.kind)
  }

  /** Every planned scarce kind that is not used up is free on the server. */
  ghost predicate KindsFit(db: Db, server: Id, used: set<Option<string>>, prefixes: seq<Prefix>, cards: seq<Card>) {
    KindsUnique(db) && forall kind :: PlansKind(prefixes, cards, kind) && kind !in used ==> KindFree(db, server, kind)
  }

  /** Rows were only added, and their keys are in order. */
  ghost predicate Gains(w: World, w': World) {
    && Quiet(w') && Sound(w') && w'.session == w.session && w.minted <= w'.minted && w'.budget == w.budget
    && w'.db.servers == w.db.servers && w'.db.catalog == w.db.catalog && w.db.endpoints <= w'.db.endpoints
  }

  lemma GainsTrans(a: World, b: World, c: World)
    requires Gains(a, b) && Gains(b, c)
    ensures Gains(a, c)
  {
    hide Sound;
  }

  lemma GainsSame(w: World, w': World)
    requires Sound(w) && Quiet(w') && w'.db == w.db && w'.minted == w.minted && w'.session == w.session && w'.budget == w.budget
    ensures Gains(w, w')
  {
  }

  lemma OnceGains(w: World, w': World, op: Op)
    requires Sound(w) && OnceMore(w, w', op) && (op.InsertIp? || op.InsertEndpoint?) && RefsBorn(op, w.session, w.minted)
    ensures Gains(w, w')
  {
    CommitSound(w.db, op, w.session, w.minted);
    hide Keyed, Unborn;
  }

  /** A new card leaves the kinds as they were. */
  lemma CardKinds(w: World, w': World, server: Id, card: Card, name: string, used: set<Option<string>>, prefixes: seq<Prefix>, cards: seq<Card>)
    requires Sound(w) && OnceMore(w, w', CardOp(server, card, name)) && KindsFit(w.db, server, used, prefixes, cards)
    ensures KindsFit(w'.db, server, used, prefixes, cards)
  {
    hide KindsUnique, PlansKind, Keyed;
    var op := CardOp(server, card, name);
    if w'.db != w.db {
      KindsNewCard(w.db, op, w.session, w.minted);
      forall kind | KindFree(w.db, server, kind) ensures KindFree(w'.db, server, kind) { FreeStill(w.db, w'.db, op, FreshId(w), server, kind); }
    }
  }

  lemma FreeStill(db: Db, db': Db, op: Op, id: Id, server: Id, kind: Option<string>)
    requires op.InsertEndpoint? && db' == Commit(db, op, id) && KindFree(db, server, kind)
    requires forall ip :: ip in db.ips ==> ip.endpointId != id
    ensures KindFree(db', server, kind)
  {
    forall ip | ip in db'.ips && ip.kind == kind ensures !CardOn(db', server, ip.endpointId) {
      OldCards(db, db', id, ip);
    }
  }

  /** An address under a kind that is free, or not scarce. */
  lemma AddrKinds(w: World, w': World, server: Id, card: Id, addr: string, p: Prefix, used: set<Option<string>>, prefixes: seq<Prefix>, cards: seq<Card>)
    requires Sound(w) && CardOn(w.db, server, card) && OnceMore(w, w', AddrOp(card, addr, p, used))
    requires First(prefixes, Covering(addr)) == Some(p) && (exists c :: c in cards && addr in c.addresses)
    requires KindsFit(w.db, server, used, prefixes, cards)
    ensures KindsFit(w'.db, server, used + {AddrOp(card, addr, p, used).kind}, prefixes, cards)
  {
    var op := AddrOp(card, addr, p, used);
    hide KindsUnique, Keyed, Unborn, First, CardOn;
    if Scarce(op.kind) {
      var c :| c in cards && addr in c.addresses;
      assert HasKind(prefixes, addr, op.kind);
      assert PlansKind(prefixes, cards, op.kind) && op.kind !in used;
    }
    if w'.db != w.db {
      KindsNewIp(w.db, op, FreshId(w), server);
      forall kind | PlansKind(prefixes, cards, kind) && kind !in used + {op.kind} ensures KindFree(w'.db, server, kind) {
        assert KindFree(w.db, server, kind);
        OtherKindFree(w.db, w'.db, op, FreshId(w), server, kind);
      }
    }
  }

  lemma OtherKindFree(db: Db, db': Db, op: Op, id: Id, server: Id, kind: Option<string>)
    requires op.InsertIp? && db' == Commit(db, op, id) && KindFree(db, server, kind) && kind != op.kind
    ensures KindFree(db', server, kind)
  {
    assert forall c :: CardOn(db', server, c) == CardOn(db, server, c);
    hide CardOn;
  }

  lemma CardIsBorn(w: World, server: Id, card: Id)
    requires Sound(w) && CardOn(w.db, server, card)
    ensures Born(card, w.session, w.minted)
  {
  }

  /** Each of these addresses is on one of the message's cards. */
  ghost predicate Planned(addrs: seq<string>, cards: seq<Card>) {
    forall a :: a in addrs ==> exists c :: c in cards && a in c.addresses
  }

  lemma PlannedRest(addrs: seq<string>, cards: seq<Card>)
    requires addrs != [] && Planned(addrs, cards)
    ensures Planned(addrs[1..], cards) && exists c :: c in cards && addrs[0] in c.addresses
  {
    assert addrs[0] in addrs && forall a :: a in addrs[1..] ==> a in addrs;
  }

  lemma {:induction false} AddrsKinds(
    w: World, dc: string, server: Id, card: Id, addrs: seq<string>, used: set<Option<string>>, cards: seq<Card>)
    requires Quiet(w) && Sound(w) && CardOn(w.db, server, card) && Planned(addrs, cards)
    ensures
      var s, prefixes := PersistAddrs(w, dc, card, addrs, used), PrefixesOf(w.db, dc);
      && Gains(w, s.w)
      && (KindsFit(w.db, server, used, prefixes, cards) ==>
            KindsUnique(s.w.db) && (s.Fine? ==> KindsFit(s.w.db, server, s.value, prefixes, cards)))
    decreases |addrs|
  {
    if addrs == [] {
      GainsSame(w, w);
    } else {
      PrefixLookup(w, addrs[0], dc);
      PrefixExact(w, addrs[0], dc);
      var prefix, prefixes := NetPrefix(w, addrs[0], dc, Some(RECORDED)), PrefixesOf(w.db, dc);
      PlannedRest(addrs, cards);
      hide NetPrefix, Call, AddrOp, KindsFit, CardOn, Sound, KindsUnique, First, PrefixesOf;
      GainsSame(w, prefix.w);
      SamePrefixes(prefix.w.db, w.db, dc);
      FitIsKinds(w.db, server, used, prefixes, cards);
      if prefix.Fine? && prefix.value.None? {
        AddrsKinds(Recorded(prefix.w, "network_prefix"), dc, server, card, addrs[1..], used, cards);
      } else if prefix.Fine? {
        AddrsKindsOn(w, prefix.w, dc, server, card, addrs, used, cards, prefix.value.value);
      }
    }
  }

  lemma FitIsKinds(db: Db, server: Id, used: set<Option<string>>, prefixes: seq<Prefix>, cards: seq<Card>)
    ensures KindsFit(db, server, used, prefixes, cards) ==> KindsUnique(db)
  {
  }

  /** One covered address, and then the rest. */
  lemma {:induction false} AddrsKindsOn(
    w: World, w1: World, dc: string, server: Id, card: Id, addrs: seq<string>, used: set<Option<string>>, cards: seq<Card>, p: Prefix)
    requires addrs != [] && Quiet(w1) && Sound(w1) && w1.db == w.db && w1.budget == w.budget && CardOn(w.db, server, card) && Planned(addrs, cards)
    requires Gains(w, w1) && First(PrefixesOf(w.db, dc), Covering(addrs[0])) == Some(p)
    ensures
      var op, prefixes := AddrOp(card, addrs[0], p, used), PrefixesOf(w.db, dc);
      var t := Call(w1, op, Once(SelectIp(addrs[0], card, Some(p.id))), RECORDS_IP);
      var s := if t.answer.Threw? then Broken(t.w, t.answer.exn) else PersistAddrs(t.w, dc, card, addrs[1..], used + {op.kind});
      && Gains(w, s.w)
      && (KindsFit(w.db, server, used, prefixes, cards) ==>
            KindsUnique(s.w.db) && (s.Fine? ==> KindsFit(s.w.db, server, s.value, prefixes, cards)))
    decreases |addrs|, 0
  {
    var op, prefixes := AddrOp(card, addrs[0], p, used), PrefixesOf(w.db, dc);
    PlannedRest(addrs, cards);
    var t := Call(w1, op, Once(SelectIp(addrs[0], card, Some(p.id))), RECORDS_IP);
    IpOnce(w1, card, addrs[0], p, used);
    CardIsBorn(w1, server, card);
    OnceGains(w1, t.w, op);
    hide Call, KindsFit, Sound, KindsUnique, First, PrefixesOf, OnceMore, PersistAddrs;
    SamePrefixes(t.w.db, w.db, dc);
    CardStays(w.db, t.w.db, server, card);
    hide CardOn;
    GainsTrans(w, w1, t.w);
    if KindsFit(w.db, server, used, prefixes, cards) {
      AddrKinds(w1, t.w, server, card, addrs[0], p, used, prefixes, cards);
    }
    FitIsKinds(t.w.db, server, used + {op.kind}, prefixes, cards);
    hide AddrOp;
    if t.answer.Got? {
      AddrsKinds(t.w, dc, server, card, addrs[1..], used + {op.kind}, cards);
      GainsTrans(w, t.w, PersistAddrs(t.w, dc, card, addrs[1..], used + {op.kind}).w);
    }
  }

  lemma CardPlanned(card: Card, cards: seq<Card>)
    requires card in cards
    ensures Planned(card.addresses, cards)
  {
  }

  /** Rows were only added, and if the planned kinds fitted, kinds stay unique. */
  ghost predicate KindsDone(w: World, w': World, server: Id, used: set<Option<string>>, prefixes: seq<Prefix>, cards: seq<Card>) {
    Gains(w, w') && (KindsFit(w.db, server, used, prefixes, cards) ==> KindsUnique(w'.db))
  }

  lemma KindsThen(w: World, w1: World, w': World, server: Id, used: set<Option<string>>, used1: set<Option<string>>, prefixes: seq<Prefix>, cards: seq<Card>)
    requires Gains(w, w1) && KindsDone(w1, w', server, used1, prefixes, cards)
    requires KindsFit(w.db, server, used, prefixes, cards) ==> KindsFit(w1.db, server, used1, prefixes, cards)
    ensures KindsDone(w, w', server, used, prefixes, cards)
  {
    hide Gains, KindsFit, KindsUnique;
    GainsTrans(w, w1, w');
  }

  lemma KindsEnd(w: World, w': World, server: Id, used: set<Option<string>>, used': set<Option<string>>, prefixes: seq<Prefix>, cards: seq<Card>)
    requires Gains(w, w') && (KindsFit(w.db, server, used, prefixes, cards) ==> KindsFit(w'.db, server, used', prefixes, cards))
    ensures KindsDone(w, w', server, used, prefixes, cards)
  {
    hide Gains, PlansKind;
  }

  lemma GainsMeans(w: World, w': World, server: Id)
    requires Gains(w, w') && Born(server, w.session, w.minted)
    ensures Quiet(w') && Sound(w') && Born(server, w'.session, w'.minted) && w'.db.catalog == w.db.catalog
  {
    hide Keyed, Unborn;
  }

  /** The addresses of a card that is on the server, and then the other cards. */
  lemma {:induction false} CardThenKinds(
    w: World, dc: string, server: Id, id: Id, rest: seq<Card>, taken: seq<string>, used: set<Option<string>>, cards: seq<Card>)
    requires rest != [] && Quiet(w) && Sound(w) && Born(server, w.session, w.minted) && CardOn(w.db, server, id) && forall c :: c in rest ==> c in cards
    ensures
      var addrs := PersistAddrs(w, dc, id, rest[0].addresses, used);
      var s := if addrs.Broken? then Broken(addrs.w, addrs.exn) else PersistCards(addrs.w, dc, server, rest[1..], taken, addrs.value);
      KindsDone(w, s.w, server, used, PrefixesOf(w.db, dc), cards)
    decreases |rest|, 0
  {
    hide PersistAddrs, PersistCards, KindsFit, KindsUnique, Sound, PrefixesOf, CardOn, Gains;
    assert rest[0] in rest && forall c :: c in rest[1..] ==> c in rest;
    var prefixes := PrefixesOf(w.db, dc);
    var addrs := PersistAddrs(w, dc, id, rest[0].addresses, used);
    CardPlanned(rest[0], cards);
    AddrsKinds(w, dc, server, id, rest[0].addresses, used, cards);
    GainsMeans(w, addrs.w, server);
    SamePrefixes(addrs.w.db, w.db, dc);
    if addrs.Fine? {
      CardsKinds(addrs.w, dc, server, rest[1..], taken, addrs.value, cards);
      KindsThen(w, addrs.w, PersistCards(addrs.w, dc, server, rest[1..], taken, addrs.value).w, server, used, addrs.value, prefixes, cards);
    }
  }

  /** Cards and addresses of planned kinds that are free on the server: kinds stay unique, whatever the tape. */
  lemma {:induction false} CardsKinds(
    w: World, dc: string, server: Id, rest: seq<Card>, taken: seq<string>, used: set<Option<string>>, cards: seq<Card>)
    requires Quiet(w) && Sound(w) && Born(server, w.session, w.minted) && forall c :: c in rest ==> c in cards
    ensures KindsDone(w, PersistCards(w, dc, server, rest, taken, used).w, server, used, PrefixesOf(w.db, dc), cards)
    decreases |rest|, 1
  {
    hide PersistAddrs, Call, CardName, CardSelector, KindsFit, KindsUnique, PrefixesOf, CardOn, Gains, KindsDone, Sound, OnceMore;
    var prefixes := PrefixesOf(w.db, dc);
    if rest == [] {
      GainsSame(w, w);
      KindsEnd(w, w, server, used, used, prefixes, cards);
    } else {
      var card, name := rest[0], CardName(rest[0], taken);
      var taken' := if card.placeholder then taken + [name] else taken;
      var t := Call(w, CardOp(server, card, name), CardSelector(server, card, name), RECORDS_ENDPOINT);
      CardInserted(w, t.w, server, card, name, used, prefixes, cards) by { CardOnce(w, server, card, name); }
      CardOnce(w, server, card, name);
      GainsMeans(w, t.w, server);
      SamePrefixes(t.w.db, w.db, dc);
      if t.answer.Threw? {
        KindsEnd(w, t.w, server, used, used, prefixes, cards);
      } else if t.answer.reply.EndpointRef? {
        CardThenKinds(t.w, dc, server, t.answer.reply.endpoint, rest, taken', used, cards);
        KindsThen(w, t.w, PersistCards(w, dc, server, rest, taken, used).w, server, used, used, prefixes, cards);
      } else {
        assert forall c :: c in rest[1..] ==> c in rest;
        CardsKinds(t.w, dc, server, rest[1..], taken', used, cards);
        KindsThen(w, t.w, PersistCards(w, dc, server, rest, taken, used).w, server, used, used, prefixes, cards);
      }
    }
  }

  lemma CardInserted(w: World, w': World, server: Id, card: Card, name: string, used: set<Option<string>>, prefixes: seq<Prefix>, cards: seq<Card>)
    requires Sound(w) && Born(server, w.session, w.minted) && OnceMore(w, w', CardOp(server, card, name))
    ensures Gains(w, w') && (KindsFit(w.db, server, used, prefixes, cards) ==> KindsFit(w'.db, server, used, prefixes, cards))
  {
    OnceGains(w, w', CardOp(server, card, name));
    hide KindsFit, Gains, OnceMore, Sound;
    if KindsFit(w.db, server, used, prefixes, cards) { CardKinds(w, w', server, card, name, used, prefixes, cards); }
  }
}
