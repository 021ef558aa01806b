/** Writing the cards and addresses of one server: nothing else moves, nothing doubles, nothing is lost silently. */
module NetProofs {
  import opened Basics
  import opened BondNames
  import opened Cmdb
  import opened Planning
  import opened Retry
  import opened RetryProofs
  import opened StoreFacts
  import opened Attachments
  import opened Create
  import opened FieldProofs
  import opened Invariants

  /** Only cards of this server, and addresses on such cards, were added. */
  ghost predicate Grown(w: World, w': World, server: Id) {
    && Quiet(w') && Sound(w') && w'.session == w.session && w.minted <= w'.minted && w.errors <= w'.errors
    && w'.db.servers == w.db.servers && w'.db.rails == w.db.rails && w'.db.catalog == w.db.catalog
    && w.db.endpoints <= w'.db.endpoints && w.db.ips <= w'.db.ips
    && (forall i :: |w.db.endpoints| <= i < |w'.db.endpoints| ==> w'.db.endpoints[i].serverId == server)
    && (forall i :: |w.db.ips| <= i < |w'.db.ips| ==> CardOn(w'.db, server, w'.db.ips[i].endpointId))
    && Tidier(w.db, w'.db)
  }

  lemma CardStays(db: Db, db': Db, server: Id, card: Id)
    requires db.endpoints <= db'.endpoints && CardOn(db, server, card)
    ensures CardOn(db', server, card)
  {
    var e :| e in db.endpoints && e.id == card && e.serverId == server;
    assert e in db'.endpoints;
  }

  lemma GrownTrans(a: World, b: World, c: World, server: Id)
    requires Grown(a, b, server) && Grown(b, c, server)
    ensures Grown(a, c, server)
  {
    hide CardOn, Sound;
    forall i | |a.db.ips| <= i < |c.db.ips| ensures CardOn(c.db, server, c.db.ips[i].endpointId) {
      if i < |b.db.ips| { CardStays(b.db, c.db, server, b.db.ips[i].endpointId); }
    }
  }

  lemma GrownSame(w: World, w': World, server: Id)
    requires Sound(w) && w'.db == w.db && w'.minted == w.minted && w'.session == w.session && Quiet(w') && w.errors <= w'.errors
    ensures Grown(w, w', server)
  {
  }

  // -- addresses ---------------------------------------------------------------------------

  /** Every scarce kind already on the server is known to be used. */
  ghost predicate UsedKnown(db: Db, server: Id, used: set<Option<string>>) {
    forall kind :: Scarce(kind) && kind !in used ==> KindFree(db, server, kind)
  }

  /** The address has a row on some card of the server. */
  ghost predicate Placed(db: Db, server: Id, addr: string) {
    exists ip :: ip in db.ips && ip.addr == addr && CardOn(db, server, ip.endpointId)
  }

  lemma PlacedStays(db: Db, db': Db, server: Id, addr: string)
    requires db.endpoints <= db'.endpoints && db.ips <= db'.ips && Placed(db, server, addr)
    ensures Placed(db', server, addr)
  {
    var ip :| ip in db.ips && ip.addr == addr && CardOn(db, server, ip.endpointId);
    assert ip in db'.ips;
    CardStays(db, db', server, ip.endpointId);
  }

  lemma PrefixLookup(w: World, addr: string, dc: string)
    requires Quiet(w)
    ensures
      var s := NetPrefix(w, addr, dc, Some(RECORDED));
      s.w.db == w.db && s.w.minted == w.minted && Quiet(s.w) && w.errors <= s.w.errors
      && (s.Broken? ==> s.exn == Transport)
  {
    ReadCall(w, SelectPrefixes(dc), Opts("network_prefix", false, Some(RECORDED)));
    hide Call, Reads;
  }

  lemma IpKeyDetected(db: Db, op: Op)
    requires op.InsertIp?
    ensures Detects(Once(SelectIp(op.addr, op.endpointId, op.prefix)), db, op)
  {
    forall id ensures Finds(Once(SelectIp(op.addr, op.endpointId, op.prefix)), Commit(db, op, id)) != Nothing {
      var row := Ip(id, op.endpointId, op.addr, op.kind, op.prefix);
      assert row in Commit(db, op, id).ips && SameIp(op.addr, op.endpointId, op.prefix)(row);
    }
  }

  lemma FoundIpIsPlaced(db: Db, op: Op, server: Id)
    requires op.InsertIp? && CardOn(db, server, op.endpointId)
    requires Finds(Once(SelectIp(op.addr, op.endpointId, op.prefix)), db) != Nothing
    ensures Placed(db, server, op.addr)
  {
    var ip := First(db.ips, SameIp(op.addr, op.endpointId, op.prefix)).value;
    assert ip in db.ips && ip.addr == op.addr && CardOn(db, server, ip.endpointId);
  }

  lemma NewIpIsPlaced(db: Db, op: Op, id: Id, server: Id, used: set<Option<string>>)
    requires op.InsertIp? && CardOn(db, server, op.endpointId) && UsedKnown(db, server, used)
    ensures Placed(Commit(db, op, id), server, op.addr) && UsedKnown(Commit(db, op, id), server, used + {op.kind})
  {
    var db' := Commit(db, op, id);
    assert forall s, c :: CardOn(db', s, c) == CardOn(db, s, c);
    var row := Ip(id, op.endpointId, op.addr, op.kind, op.prefix);
    assert row in db'.ips;
  }

  function AddrOp(card: Id, addr: string, p: Prefix, used: set<Option<string>>): Op {
    InsertIp(card, addr, Some(ResolveIpType(p.kind, used)), Some(p.id))
  }

  lemma UsedMore(db: Db, server: Id, used: set<Option<string>>, kind: Option<string>)
    requires UsedKnown(db, server, used)
    ensures UsedKnown(db, server, used + {kind})
  {
  }

  /** One address: at most one row, of a kind still free; present unless a failure was recorded. */
  lemma AddrStage(w: World, server: Id, card: Id, addr: string, p: Prefix, used: set<Option<string>>)
    requires Quiet(w) && Sound(w) && CardOn(w.db, server, card) && UsedKnown(w.db, server, used)
    ensures
      var op := AddrOp(card, addr, p, used);
      var t := Call(w, op, Once(SelectIp(addr, card, Some(p.id))), RECORDS_IP);
      && Grown(w, t.w, server) && t.w.db.endpoints == w.db.endpoints
      && UsedKnown(t.w.db, server, used + {op.kind})
      && (t.answer.Got? && !NewMark(w.errors, t.w.errors) ==> Placed(t.w.db, server, addr))
  {
    var op := AddrOp(card, addr, p, used);
    var sel := Once(SelectIp(addr, card, Some(p.id)));
    IpKeyDetected(w.db, op);
    hide Finds, Commit, Reads, Call, NamesUnique, KindsUnique, Sound, CardOn, Placed, UsedKnown, Detects, Grown, NewMark, InsertResult;
    var t := Call(w, op, sel, RECORDS_IP);
    assert !(Scarce(op.kind) && op.kind in used) by { KindStillFree(p.kind, used); }
    InsertCall(w, op, sel, RECORDS_IP);
    IpStored(w, t, op, server, used);
    if t.answer.Got? {
      AnsweredIp(w, t, op, server, used);
    }
  }

  lemma KindStillFree(kind: string, used: set<Option<string>>)
    ensures var k := Some(ResolveIpType(kind, used)); Scarce(k) ==> k !in used
  {
  }

  lemma IpStored(w: World, t: Turn, op: Op, server: Id, used: set<Option<string>>)
    requires Quiet(w) && Sound(w) && op.InsertIp? && CardOn(w.db, server, op.endpointId)
    requires UsedKnown(w.db, server, used) && (Scarce(op.kind) ==> op.kind !in used)
    requires InsertResult(w, op, Once(SelectIp(op.addr, op.endpointId, op.prefix)), RECORDS_IP, t)
    requires Quiet(t.w) && t.w.session == w.session
    ensures Grown(w, t.w, server) && t.w.db.endpoints == w.db.endpoints
    ensures UsedKnown(t.w.db, server, used + {op.kind})
  {
    hide Finds, Reads, NamesUnique, KindsUnique, Sound, CardOn, UsedKnown, Grown;
    UsedMore(w.db, server, used, op.kind);
    if t.w.db == w.db && t.w.minted == w.minted {
      GrownSame(w, t.w, server);
    } else {
      NewIpGrown(w, t.w, op, server, used);
    }
  }

  lemma NewIpGrown(w: World, w': World, op: Op, server: Id, used: set<Option<string>>)
    requires Sound(w) && op.InsertIp? && CardOn(w.db, server, op.endpointId) && UsedKnown(w.db, server, used)
    requires Scarce(op.kind) ==> op.kind !in used
    requires w'.db == Commit(w.db, op, FreshId(w)) && w'.minted == w.minted + 1 && w'.session == w.session
    requires Quiet(w') && w.errors <= w'.errors
    ensures Grown(w, w', server) && UsedKnown(w'.db, server, used + {op.kind})
  {
    hide NamesUnique, KindsUnique, UsedKnown, Keyed, Unborn, KindFree, CardOn;
    IpOnOwnCard(w, op, server, used);
    CommitSound(w.db, op, w.session, w.minted);
    TidyNewIp(w.db, op, FreshId(w), server);
    NewIpIsPlaced(w.db, op, FreshId(w), server, used);
    SameCardsOn(w.db, w'.db, server, op.endpointId);
  }

  lemma IpOnOwnCard(w: World, op: Op, server: Id, used: set<Option<string>>)
    requires Sound(w) && op.InsertIp? && CardOn(w.db, server, op.endpointId) && UsedKnown(w.db, server, used)
    requires Scarce(op.kind) ==> op.kind !in used
    ensures RefsBorn(op, w.session, w.minted) && (Scarce(op.kind) ==> KindFree(w.db, server, op.kind))
  {
    var e :| e in w.db.endpoints && e.id == op.endpointId && e.serverId == server;
  }

  lemma SameCardsOn(db: Db, db': Db, server: Id, card: Id)
    requires db'.endpoints == db.endpoints && CardOn(db, server, card)
    ensures CardOn(db', server, card)
  {
  }

  /** A swallowed failure was recorded as a state error. */
  lemma SwallowedMarks(w: World, t: Turn, o: Opts)
    requires Reported(w, t, o) && o.report.Some? && o.report.value.mark && t.w.errors != w.errors
    ensures NewMark(w.errors, t.w.errors)
  {
    assert t.w.errors[|w.errors|].mark;
  }

  lemma AnsweredIp(w: World, t: Turn, op: Op, server: Id, used: set<Option<string>>)
    requires op.InsertIp? && CardOn(w.db, server, op.endpointId) && UsedKnown(w.db, server, used)
    requires InsertResult(w, op, Once(SelectIp(op.addr, op.endpointId, op.prefix)), RECORDS_IP, t)
    requires t.answer.Got?
    ensures NewMark(w.errors, t.w.errors) || Placed(t.w.db, server, op.addr)
  {
    NewIpIsPlaced(w.db, op, FreshId(w), server, used);
    hide NewMark, Placed, CardOn, Commit, Reads, Reported;
    if t.answer == Got(Nothing) {
      SwallowedMarks(w, t, RECORDS_IP);
    } else if t.w.db == w.db && t.answer.reply == Finds(Once(SelectIp(op.addr, op.endpointId, op.prefix)), w.db) {
      FoundIpIsPlaced(w.db, op, server);
    }
  }

  /** What writing a card's addresses guarantees. */
  ghost predicate AddrsDone(w: World, s: Stage<set<Option<string>>>, server: Id, addrs: seq<string>, used: set<Option<string>>) {
    && Grown(w, s.w, server) && s.w.db.endpoints == w.db.endpoints
    && (s.Fine? ==> UsedKnown(s.w.db, server, s.value))
    && (s.Fine? && !NewMark(w.errors, s.w.errors) ==> forall a :: a in addrs ==> Placed(s.w.db, server, a))
  }

  lemma AddrsJoin(w: World, w1: World, s: Stage<set<Option<string>>>, server: Id, addrs: seq<string>, used: set<Option<string>>, used1: set<Option<string>>)
    requires addrs != [] && Grown(w, w1, server) && w1.db.endpoints == w.db.endpoints
    requires !NewMark(w.errors, w1.errors) ==> Placed(w1.db, server, addrs[0])
    requires AddrsDone(w1, s, server, addrs[1..], used1)
    ensures AddrsDone(w, s, server, addrs, used)
  {
    GrownTrans(w, w1, s.w, server);
    if s.Fine? && !NewMark(w.errors, s.w.errors) {
      NoMarkBetween(w.errors, w1.errors, s.w.errors);
      PlacedStays(w1.db, s.w.db, server, addrs[0]);
      assert addrs == [addrs[0]] + addrs[1..];
    }
  }

  lemma RecordedMark(w: World, w1: World, field: string)
    requires w.errors <= w1.errors
    ensures NewMark(w.errors, Recorded(w1, field).errors)
  {
    assert Recorded(w1, field).errors[|w1.errors|].mark;
  }

  lemma {:induction false} AddrsStage(w: World, dc: string, server: Id, card: Id, addrs: seq<string>, used: set<Option<string>>)
    requires Quiet(w) && Sound(w) && CardOn(w.db, server, card) && UsedKnown(w.db, server, used)
    ensures AddrsDone(w, PersistAddrs(w, dc, card, addrs, used), server, addrs, used)
    decreases |addrs|
  {
    var s := PersistAddrs(w, dc, card, addrs, used);
    if addrs == [] {
      GrownSame(w, w, server);
    } else {
      var prefix := NetPrefix(w, addrs[0], dc, Some(RECORDED));
      PrefixLookup(w, addrs[0], dc);
      hide NetPrefix, Call, NamesUnique, KindsUnique, CardOn, UsedKnown, Placed, AddrsDone, NewMark;
      GrownSame(w, prefix.w, server);
      if prefix.Broken? {
        OnlyGrown(w, s, server, addrs, used);
      } else if prefix.value.None? {
        var w1 := Recorded(prefix.w, "network_prefix");
        RecordedMark(w, prefix.w, "network_prefix");
        GrownSame(w, w1, server);
        AddrsStage(w1, dc, server, card, addrs[1..], used);
        AddrsJoin(w, w1, s, server, addrs, used, used);
      } else {
        var p := prefix.value.value;
        var op := AddrOp(card, addrs[0], p, used);
        AddrStage(prefix.w, server, card, addrs[0], p, used);
        var t := Call(prefix.w, op, Once(SelectIp(addrs[0], card, Some(p.id))), RECORDS_IP);
        GrownTrans(w, prefix.w, t.w, server);
        if t.answer.Got? {
          CardStays(w.db, t.w.db, server, card);
          AddrsStage(t.w, dc, server, card, addrs[1..], used + {op.kind});
          MarkShift(w.errors, prefix.w.errors, t.w.errors);
          AddrsJoin(w, t.w, s, server, addrs, used, used + {op.kind});
        } else {
          OnlyGrown(w, s, server, addrs, used);
        }
      }
    }
  }

  lemma OnlyGrown(w: World, s: Stage<set<Option<string>>>, server: Id, addrs: seq<string>, used: set<Option<string>>)
    requires Grown(w, s.w, server) && s.w.db.endpoints == w.db.endpoints && s.Broken?
    ensures AddrsDone(w, s, server, addrs, used)
  {
  }

  lemma MarkShift(a: seq<Entry>, b: seq<Entry>, c: seq<Entry>)
    requires a <= b <= c
    ensures NewMark(b, c) ==> NewMark(a, c)
  {
  }

  // -- cards ----------------------------------------------------------------------------------

  /** Every card on the server has one of these names. */
  ghost predicate NamedWithin(db: Db, server: Id, done: seq<string>) {
    forall e :: e in db.endpoints && e.serverId == server ==> e.name in done
  }

  /** None of these names is used yet, and they are pairwise distinct. */
  ghost predicate NamesAhead(names: seq<string>, done: seq<string>) {
    Distinct(names) && forall n :: n in names ==> n !in done
  }

  function CardOp(server: Id, card: Card, name: string): Op { InsertEndpoint(server, name, card.mac, card.name) }

  lemma CardKeyDetected(db: Db, server: Id, card: Card, name: string)
    ensures Detects(CardSelector(server, card, name), db, CardOp(server, card, name))
  {
    var op := CardOp(server, card, name);
    forall id ensures Finds(CardSelector(server, card, name), Commit(db, op, id)) != Nothing {
      var row := Endpoint(id, server, name, card.mac, card.name);
      assert row in Commit(db, op, id).endpoints && Named(server, name)(row) && WithMac(server, card.mac)(row);
    }
  }

  /** Whatever the selector finds is a card of this server. */
  lemma FoundCardIsHere(db: Db, server: Id, card: Card, name: string)
    ensures
      var r := Finds(CardSelector(server, card, name), db);
      r != Nothing ==> r.EndpointRef? && CardOn(db, server, r.endpoint)
  {
  }

  lemma NewCardGrown(w: World, w': World, server: Id, card: Card, name: string, done: seq<string>, used: set<Option<string>>)
    requires Sound(w) && Born(server, w.session, w.minted) && UsedKnown(w.db, server, used)
    requires NamedWithin(w.db, server, done) && name !in done
    requires w'.db == Commit(w.db, CardOp(server, card, name), FreshId(w)) && w'.minted == w.minted + 1
    requires w'.session == w.session && Quiet(w') && w.errors <= w'.errors
    ensures Grown(w, w', server) && UsedKnown(w'.db, server, used)
    ensures NamedWithin(w'.db, server, done + [name]) && CardOn(w'.db, server, FreshId(w))
  {
    var op := CardOp(server, card, name);
    CommitSound(w.db, op, w.session, w.minted);
    TidyNewCard(w.db, op, w.session, w.minted);
    var row := Endpoint(FreshId(w), server, name, card.mac, card.name);
    assert row in w'.db.endpoints;
    forall ip | ip in w.db.ips ensures CardOn(w'.db, server, ip.endpointId) ==> CardOn(w.db, server, ip.endpointId) {
      OldCards(w.db, w'.db, FreshId(w), ip);
    }
    hide NamesUnique, KindsUnique, Sound;
  }

  /** What inserting one card guarantees. */
  ghost predicate CardDone(w: World, t: Turn, server: Id, done: seq<string>, used: set<Option<string>>) {
    && Grown(w, t.w, server) && UsedKnown(t.w.db, server, used) && NamedWithin(t.w.db, server, done)
    && (t.answer == Got(Nothing) ==> NewMark(w.errors, t.w.errors))
    && (t.answer.Got? && t.answer.reply != Nothing ==>
          t.answer.reply.EndpointRef? && CardOn(t.w.db, server, t.answer.reply.endpoint))
  }

  lemma CardStage(w: World, server: Id, card: Card, name: string, done: seq<string>, used: set<Option<string>>)
    requires Quiet(w) && Sound(w) && Born(server, w.session, w.minted) && UsedKnown(w.db, server, used)
    requires NamedWithin(w.db, server, done) && name !in done
    ensures
      CardDone(w, Call(w, CardOp(server, card, name), CardSelector(server, card, name), RECORDS_ENDPOINT), server, done + [name], used)
  {
    var op, sel := CardOp(server, card, name), CardSelector(server, card, name);
    CardKeyDetected(w.db, server, card, name);
    hide Call, Commit, Reads, Finds, Detects, Sound, NamesUnique, KindsUnique, UsedKnown, NamedWithin, CardOn, InsertResult, Grown;
    InsertCall(w, op, sel, RECORDS_ENDPOINT);
    CardStored(w, Call(w, op, sel, RECORDS_ENDPOINT), server, card, name, done, used);
  }

  lemma CardStored(w: World, t: Turn, server: Id, card: Card, name: string, done: seq<string>, used: set<Option<string>>)
    requires Quiet(w) && Sound(w) && Born(server, w.session, w.minted) && UsedKnown(w.db, server, used)
    requires NamedWithin(w.db, server, done) && name !in done && Quiet(t.w) && t.w.session == w.session
    requires InsertResult(w, CardOp(server, card, name), CardSelector(server, card, name), RECORDS_ENDPOINT, t)
    ensures CardDone(w, t, server, done + [name], used)
  {
    var op, sel := CardOp(server, card, name), CardSelector(server, card, name);
    FoundCardIsHere(w.db, server, card, name);
    FoundCardIsHere(Commit(w.db, op, FreshId(w)), server, card, name);
    assert Reads(w.db, op, FreshId(w)) == EndpointRef(FreshId(w), name, false);
    if t.w.errors != w.errors { SwallowedMarks(w, t, RECORDS_ENDPOINT); }
    if t.w.db == w.db && t.w.minted == w.minted {
      hide Commit, Reads, Finds, Sound, NamesUnique, KindsUnique, UsedKnown, CardOn, Grown, NewMark;
      GrownSame(w, t.w, server);
    } else {
      hide Reads, Finds, Sound, NamesUnique, KindsUnique, UsedKnown, CardOn, Grown, NewMark;
      NewCardGrown(w, t.w, server, card, name, done, used);
    }
  }

  // -- all cards ------------------------------------------------------------------------------

  /** What writing the cards guarantees. */
  ghost predicate CardsDone(w: World, s: Stage<()>, server: Id, cards: seq<Card>) {
    && Grown(w, s.w, server)
    && (s.Fine? && !NewMark(w.errors, s.w.errors) ==>
          forall c, a :: c in cards && a in c.addresses ==> Placed(s.w.db, server, a))
  }

  lemma CardsOnlyGrown(w: World, s: Stage<()>, server: Id, cards: seq<Card>)
    requires Grown(w, s.w, server) && s.Broken?
    ensures CardsDone(w, s, server, cards)
  {
  }

  /** The first card and then the rest. */
  lemma CardsJoin(w: World, w1: World, s: Stage<()>, server: Id, cards: seq<Card>)
    requires cards != [] && Grown(w, w1, server) && CardsDone(w1, s, server, cards[1..])
    requires !NewMark(w.errors, w1.errors) ==> forall a :: a in cards[0].addresses ==> Placed(w1.db, server, a)
    ensures CardsDone(w, s, server, cards)
  {
    GrownTrans(w, w1, s.w, server);
    if s.Fine? && !NewMark(w.errors, s.w.errors) {
      NoMarkBetween(w.errors, w1.errors, s.w.errors);
      forall c, a | c in cards && a in c.addresses ensures Placed(s.w.db, server, a) {
        if c == cards[0] { PlacedStays(w1.db, s.w.db, server, a); }
        else { assert cards == [cards[0]] + cards[1..]; }
      }
    }
  }

  lemma GrownKeeps(w: World, w': World, server: Id)
    requires Grown(w, w', server)
    ensures Quiet(w') && Sound(w')
  {
  }

  lemma NamedStays(db: Db, db': Db, server: Id, done: seq<string>)
    requires NamedWithin(db, server, done) && db'.endpoints == db.endpoints
    ensures NamedWithin(db', server, done)
  {
  }

  lemma BornLater(id: Id, w: World, w': World, server: Id)
    requires Born(id, w.session, w.minted) && Grown(w, w', server)
    ensures Born(id, w'.session, w'.minted)
  {
  }

  lemma NextAhead(name: string, rest: seq<string>, done: seq<string>)
    requires NamesAhead([name] + rest, done)
    ensures name !in done && NamesAhead(rest, done + [name])
  {
    assert ([name] + rest)[0] == name;
    forall i, j | 0 <= i < j < |rest| ensures rest[i] != rest[j] {
      assert ([name] + rest)[i + 1] != ([name] + rest)[j + 1];
    }
    forall n | n in rest ensures n !in done + [name] {
      var i :| 0 <= i < |rest| && rest[i] == n;
      assert ([name] + rest)[i + 1] == n;
    }
  }

  lemma NamesStep(cards: seq<Card>, taken: seq<string>)
    requires cards != []
    ensures
      var name := CardName(cards[0], taken);
      EndpointNames(cards, taken) ==
        [name] + EndpointNames(cards[1..], if cards[0].placeholder then taken + [name] else taken)
  {
  }

  /** Cards and addresses of one server, under arbitrary faults. */
  lemma {:induction false} CardsStage(
    w: World, dc: string, server: Id, cards: seq<Card>, taken: seq<string>, used: set<Option<string>>, done: seq<string>)
    requires Quiet(w) && Sound(w) && Born(server, w.session, w.minted) && UsedKnown(w.db, server, used)
    requires NamedWithin(w.db, server, done) && NamesAhead(EndpointNames(cards, taken), done)
    ensures CardsDone(w, PersistCards(w, dc, server, cards, taken, used), server, cards)
    decreases |cards|, 1
  {
    var s := PersistCards(w, dc, server, cards, taken, used);
    hide Sound, NamesUnique, KindsUnique, UsedKnown, NamedWithin, CardOn, Placed, NewMark, Born, NamesAhead, EndpointNames, CardName, Call, Grown;
    if cards == [] {
      GrownSame(w, w, server);
      assert CardsDone(w, s, server, cards);
    } else {
      var card, rest := cards[0], cards[1..];
      var name := CardName(card, taken);
      var taken' := if card.placeholder then taken + [name] else taken;
      NamesStep(cards, taken);
      NextAhead(name, EndpointNames(rest, taken'), done);
      CardStage(w, server, card, name, done, used);
      var t := Call(w, CardOp(server, card, name), CardSelector(server, card, name), RECORDS_ENDPOINT);
      hide CardsDone;
      if t.answer.Threw? {
        CardsOnlyGrown(w, s, server, cards);
      } else if t.answer.reply == Nothing {
        BornLater(server, w, t.w, server);
        GrownKeeps(w, t.w, server);
        CardsStage(t.w, dc, server, rest, taken', used, done + [name]);
        CardsJoin(w, t.w, s, server, cards);
      } else {
        CardThenRest(w, t, dc, server, cards, taken', used, done + [name]);
      }
    }
  }

  /** A card that has a row: its addresses, and then the rest of the cards. */
  lemma {:induction false} CardThenRest(
    w: World, t: Turn, dc: string, server: Id, cards: seq<Card>, taken: seq<string>, used: set<Option<string>>, done: seq<string>)
    requires cards != [] && CardDone(w, t, server, done, used) && t.answer.Got? && t.answer.reply != Nothing
    requires Born(server, w.session, w.minted) && NamesAhead(EndpointNames(cards[1..], taken), done)
    ensures
      var addrs := PersistAddrs(t.w, dc, t.answer.reply.endpoint, cards[0].addresses, used);
      CardsDone(w, if addrs.Broken? then Broken(addrs.w, addrs.exn)
                   else PersistCards(addrs.w, dc, server, cards[1..], taken, addrs.value), server, cards)
    decreases |cards|, 0
  {
    hide Sound, NamesUnique, KindsUnique, UsedKnown, NamedWithin, CardOn, Placed, NewMark, Born, NamesAhead, EndpointNames, CardName, Call, PersistCards;
    var id := t.answer.reply.endpoint;
    AddrsStage(t.w, dc, server, id, cards[0].addresses, used);
    var addrs := PersistAddrs(t.w, dc, id, cards[0].addresses, used);
    hide Grown, PersistAddrs, CardsDone;
    GrownTrans(w, t.w, addrs.w, server);
    if addrs.Broken? {
      CardsOnlyGrown(w, Broken(addrs.w, addrs.exn), server, cards);
    } else {
      NamedStays(t.w.db, addrs.w.db, server, done);
      BornLater(server, w, addrs.w, server);
      CardsStage(addrs.w, dc, server, cards[1..], taken, addrs.value, done);
      MarkShift(w.errors, t.w.errors, addrs.w.errors);
      CardsJoin(w, addrs.w, PersistCards(addrs.w, dc, server, cards[1..], taken, addrs.value), server, cards);
    }
  }
}
