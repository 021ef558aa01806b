/** Every protocol, step by step, with and without other messages around. */
module ProtocolTwins {
  import opened Basics
  import opened BondNames
  import opened Cmdb
  import opened Planning
  import opened Retry
  import opened RetryProofs
  import opened StoreFacts
  import opened Attachments
  import opened Tags
  import opened Create
  import FieldProofs
  import TagsProofs
  import opened Runs
  import opened Locality
  import opened Interference

  /** Own servers and cards stay own. */
  ghost predicate Safe(w: World, w': World) {
    Own(w) <= Own(w') && OwnCards(w) <= OwnCards(w') && w'.scope == w.scope && w'.session == w.session
  }

  ghost predicate SafeTurn(v: World, s: Turn, t: Turn) { TwinTurn(s, t) && Safe(v, t.w) && Refs(t.w, t.answer) }
  ghost predicate SafeStage<T>(v: World, s: Stage<T>, t: Stage<T>) { TwinStage(s, t) && Safe(v, t.w) }

  lemma SafeSelf(v: World)
    ensures Safe(v, v)
  {
  }

  lemma SafeOwn(w: World, w': World, id: Id)
    requires Safe(w, w')
    ensures id in Own(w) ==> id in Own(w')
    ensures id in OwnCards(w) ==> id in OwnCards(w')
    ensures w'.scope == w.scope
  {
  }

  /** A safe stretch and then a safe stage. */
  lemma SafeThen<T>(v: World, v1: World, s: Stage<T>, t: Stage<T>)
    requires Safe(v, v1) && SafeStage(v1, s, t)
    ensures SafeStage(v, s, t)
  {
    hide Own, OwnCards, Twin;
  }

  lemma SafeBroken<T>(v: World, a: World, b: World, e: Exn, s: Stage<T>, t: Stage<T>)
    requires Twin(a, b) && Safe(v, b) && s == Broken(a, e) && t == Broken(b, e)
    ensures SafeStage(v, s, t)
  {
  }

  lemma ReadOrInsertIsOwn(v: World, op: Op)
    requires Local(v.db, v.scope, v.session, op) && !op.DeleteServer?
    ensures OwnRequest(v, op)
  {
  }

  /** A call that deletes no server and sweeps nothing. */
  lemma CallTwin(w: World, v: World, op: Op, sel: Selector, o: Opts)
    requires Twin(w, v) && Local(v.db, v.scope, v.session, op) && LocalSel(v, sel) && (sel.NoSelector? || op.Insert())
    requires !op.DeleteServer? && !op.SweepEndpoints?
    ensures SafeTurn(v, Call(w, op, sel, o), Call(v, op, sel, o))
  {
    ReadOrInsertIsOwn(v, op);
    hide Twin, Local, LocalSel, OwnRequest, Attempts, Refs;
    TwinMeans(w, v);
    AttemptsTwin(w, v, op, sel, o, 1);
    KeptIds(v, Attempts(v, op, sel, o, 1).w, op);
    hide Keeps, Mine, MyCards;
  }

  lemma NoSelCall(w: World, v: World, op: Op, o: Opts)
    requires Twin(w, v) && Local(v.db, v.scope, v.session, op)
    requires !op.DeleteServer? && !op.SweepEndpoints?
    ensures SafeTurn(v, Call(w, op, NoSelector, o), Call(v, op, NoSelector, o))
  {
    NoSel(v);
    hide Twin, Local, LocalSel, SafeTurn;
    CallTwin(w, v, op, NoSelector, o);
  }

  // -- cards and addresses ------------------------------------------------------------------------

  lemma PrefixTwin(w: World, v: World, addr: string, dc: string, report: Option<Report>)
    requires Twin(w, v)
    ensures SafeStage(v, NetPrefix(w, addr, dc, report), NetPrefix(v, addr, dc, report))
  {
    hide Twin, Safe, Refs;
    NoSelCall(w, v, SelectPrefixes(dc), Opts("network_prefix", false, report));
    hide Call, First;
  }

  lemma RecordedTwin(w: World, v: World, field: string)
    requires Twin(w, v)
    ensures Twin(Recorded(w, field), Recorded(v, field)) && Safe(v, Recorded(v, field))
  {
    hide View, Mine, MyCards;
  }

  lemma IpTwin(w: World, v: World, card: Id, addr: string, kind: string, p: Prefix)
    requires Twin(w, v) && card in OwnCards(v)
    ensures
      var op, sel := InsertIp(card, addr, Some(kind), Some(p.id)), Once(SelectIp(addr, card, Some(p.id)));
      SafeTurn(v, Call(w, op, sel, RECORDS_IP), Call(v, op, sel, RECORDS_IP))
  {
    var op, sel := InsertIp(card, addr, Some(kind), Some(p.id)), Once(SelectIp(addr, card, Some(p.id)));
    hide Twin, SafeTurn, Mine, MyCards;
    CallTwin(w, v, op, sel, RECORDS_IP);
  }

  lemma {:induction false} AddrsTwin(w: World, v: World, dc: string, card: Id, addrs: seq<string>, used: set<Option<string>>)
    requires Twin(w, v) && card in OwnCards(v)
    ensures SafeStage(v, PersistAddrs(w, dc, card, addrs, used), PersistAddrs(v, dc, card, addrs, used))
    decreases |addrs|
  {
    hide OwnCards, MyCards, EndpointIds, Own, Extends, Twin, Refs, NetPrefix, Call;
    SafeSelf(v);
    if addrs != [] {
      PrefixTwin(w, v, addrs[0], dc, Some(RECORDED));
      var s, t := NetPrefix(w, addrs[0], dc, Some(RECORDED)), NetPrefix(v, addrs[0], dc, Some(RECORDED));
      if s.Fine? && s.value.None? {
        RecordedTwin(s.w, t.w, "network_prefix");
        AddrsTwin(Recorded(s.w, "network_prefix"), Recorded(t.w, "network_prefix"), dc, card, addrs[1..], used);
      } else if s.Fine? {
        var p := s.value.value;
        var kind := ResolveIpType(p.kind, used);
        hide ResolveIpType;
        IpTwin(s.w, t.w, card, addrs[0], kind, p);
        var op, sel := InsertIp(card, addrs[0], Some(kind), Some(p.id)), Once(SelectIp(addrs[0], card, Some(p.id)));
        var a, b := Call(s.w, op, sel, RECORDS_IP), Call(t.w, op, sel, RECORDS_IP);
        if a.answer.Got? { AddrsTwin(a.w, b.w, dc, card, addrs[1..], used + {Some(kind)}); }
      }
    }
  }

  lemma CardTwin(w: World, v: World, server: Id, card: Card, name: string)
    requires Twin(w, v) && server in Own(v)
    ensures
      var op, sel := InsertEndpoint(server, name, card.mac, card.name), CardSelector(server, card, name);
      SafeTurn(v, Call(w, op, sel, RECORDS_ENDPOINT), Call(v, op, sel, RECORDS_ENDPOINT))
  {
    var op, sel := InsertEndpoint(server, name, card.mac, card.name), CardSelector(server, card, name);
    hide Twin, SafeTurn, Mine, MyCards;
    CallTwin(w, v, op, sel, RECORDS_ENDPOINT);
  }

  lemma CardAnswer(v: World, s: Turn, t: Turn)
    requires SafeTurn(v, s, t)
    ensures s.answer == t.answer && t.w.scope == v.scope
    ensures s.answer.Got? && s.answer.reply.EndpointRef? ==> s.answer.reply.endpoint in OwnCards(t.w)
    ensures s.answer.Got? && s.answer.reply.ServerRef? ==> s.answer.reply.server in Own(t.w)
    ensures s.answer.Got? && s.answer.reply.ServerList? ==> OwnFound(t.w, s.answer.reply.found)
    ensures s.answer.Got? && s.answer.reply.ServerRow? ==>
      s.answer.reply.server in Own(t.w) && forall x :: x in s.answer.reply.endpoints ==> x.row.id in OwnCards(t.w)
  {
    hide Twin, OwnFound, Mine, MyCards;
  }

  lemma {:induction false} CardsTwin(w: World, v: World, dc: string, server: Id, cards: seq<Card>, taken: seq<string>, used: set<Option<string>>)
    requires Twin(w, v) && server in Own(v)
    ensures SafeStage(v, PersistCards(w, dc, server, cards, taken, used), PersistCards(v, dc, server, cards, taken, used))
    decreases |cards|, 1
  {
    SafeSelf(v);
    hide Twin, Safe, Own, OwnCards, Refs, PersistAddrs, Call, CardName;
    if cards != [] {
      var card, name := cards[0], CardName(cards[0], taken);
      var taken' := if card.placeholder then taken + [name] else taken;
      CardTwin(w, v, server, card, name);
      var op, sel := InsertEndpoint(server, name, card.mac, card.name), CardSelector(server, card, name);
      hide CardSelector;
      var s, t := Call(w, op, sel, RECORDS_ENDPOINT), Call(v, op, sel, RECORDS_ENDPOINT);
      var a, b := PersistCards(w, dc, server, cards, taken, used), PersistCards(v, dc, server, cards, taken, used);
      CardAnswer(v, s, t);
      SafeOwn(v, t.w, server);
      if s.answer.Threw? {
        SafeBroken(v, s.w, t.w, s.answer.exn, a, b);
      } else if s.answer.reply.EndpointRef? {
        CardThenTwin(s.w, t.w, dc, server, s.answer.reply.endpoint, cards, taken', used);
        hide SafeStage;
        SafeThen(v, t.w, a, b);
      } else {
        CardsTwin(s.w, t.w, dc, server, cards[1..], taken', used);
        hide SafeStage;
        SafeThen(v, t.w, a, b);
      }
    }
  }

  /** The addresses of a card that has a row, and then the other cards. */
  lemma {:induction false} CardThenTwin(
    w: World, v: World, dc: string, server: Id, id: Id, cards: seq<Card>, taken: seq<string>, used: set<Option<string>>)
    requires cards != [] && Twin(w, v) && server in Own(v) && id in OwnCards(v)
    ensures
      var a, b := PersistAddrs(w, dc, id, cards[0].addresses, used), PersistAddrs(v, dc, id, cards[0].addresses, used);
      SafeStage(
        v,
        if a.Broken? then Broken(a.w, a.exn) else PersistCards(a.w, dc, server, cards[1..], taken, a.value),
        if b.Broken? then Broken(b.w, b.exn) else PersistCards(b.w, dc, server, cards[1..], taken, b.value))
    decreases |cards|, 0
  {
    hide Twin, Safe, Own, OwnCards, PersistAddrs, PersistCards;
    AddrsTwin(w, v, dc, id, cards[0].addresses, used);
    var a, b := PersistAddrs(w, dc, id, cards[0].addresses, used), PersistAddrs(v, dc, id, cards[0].addresses, used);
    if a.Fine? {
      SafeOwn(v, b.w, server);
      CardsTwin(a.w, b.w, dc, server, cards[1..], taken, a.value);
      SafeThen(v, b.w, PersistCards(a.w, dc, server, cards[1..], taken, a.value), PersistCards(b.w, dc, server, cards[1..], taken, b.value));
    }
  }

  /** Every write the CMDB takes gives the row no names but the message's own. */
  ghost predicate WritesStay(writes: seq<FieldWrite>, scope: Scope, refused: set<(string, Value)>) {
    forall x :: x in writes && TagsProofs.Taken(x, refused) ==> NamesStay(x.mutation, scope)
  }

  // -- the row and its fields -------------------------------------------------------------------------

  lemma UpdateTwin(w: World, v: World, hostname: Option<string>, uuid: Option<string>, m: Cols, o: Opts)
    requires Twin(w, v) && Names(v.scope, hostname, uuid) && (Accepted(v.db, m) ==> NamesStay(m, v.scope))
    ensures SafeTurn(v, Call(w, UpdateServers(hostname, uuid, m), NoSelector, o), Call(v, UpdateServers(hostname, uuid, m), NoSelector, o))
  {
    hide Twin, SafeTurn, Call, Mine, MyCards;
    NoSelCall(w, v, UpdateServers(hostname, uuid, m), o);
  }

  lemma {:induction false} ReplayTwin(w: World, v: World, ctx: Context, writes: seq<FieldWrite>)
    requires Twin(w, v) && ctx.hostname in v.scope.hostnames && WritesStay(writes, v.scope, v.db.catalog.refused)
    ensures SafeStage(v, ReplayWrites(w, ctx, writes), ReplayWrites(v, ctx, writes))
    decreases |writes|
  {
    hide Twin, Refs, Call;
    SafeSelf(v);
    if writes != [] {
      UpdateTwin(w, v, Some(ctx.hostname), Some(ctx.uuid), writes[0].mutation, WriteOpts(writes[0]));
      var s, t := UpdateRow(w, ctx, writes[0].mutation, WriteOpts(writes[0])), UpdateRow(v, ctx, writes[0].mutation, WriteOpts(writes[0]));
      if s.answer.Got? { ReplayTwin(s.w, t.w, ctx, writes[1..]); }
    }
  }

  /** A batch the CMDB takes gives the row no foreign names if no write it takes does. */
  lemma BatchStays(ctx: Context, v: World)
    requires WritesStay(CreateWrites(ctx, v.db.catalog.refs), v.scope, v.db.catalog.refused)
    ensures
      var batch := Merge(CreateWrites(ctx, v.db.catalog.refs));
      Accepted(v.db, batch) ==> NamesStay(batch, v.scope)
  {
    var writes := CreateWrites(ctx, v.db.catalog.refs);
    TagsProofs.CreateWritesOneKey(ctx, v.db.catalog.refs);
    FieldProofs.SinglesFromOnes(writes, TagsProofs.STEP_COLUMNS + TagsProofs.LeftColumns(ctx));
    hide CreateWrites, Merge;
    if Accepted(v.db, Merge(writes)) {
      if "hostname" in Merge(writes) { ColumnStays(writes, v, "hostname"); }
      if "uuid" in Merge(writes) { ColumnStays(writes, v, "uuid"); }
    }
  }

  lemma ColumnStays(writes: seq<FieldWrite>, v: World, key: string)
    requires WritesStay(writes, v.scope, v.db.catalog.refused) && TagsProofs.SingleKeys(writes)
    requires Accepted(v.db, Merge(writes)) && key in Merge(writes)
    ensures exists x :: x in writes && key in x.mutation && x.mutation[key] == Merge(writes)[key] && NamesStay(x.mutation, v.scope)
  {
    var x := FieldProofs.MergedFrom(writes, key);
    hide Merge;
    var own :| TagsProofs.OneKey(x.mutation, own);
    assert TagsProofs.Taken(x, v.db.catalog.refused);
  }

  lemma FieldsTwin(w: World, v: World, ctx: Context)
    requires Twin(w, v) && ctx.hostname in v.scope.hostnames
    requires WritesStay(CreateWrites(ctx, v.db.catalog.refs), v.scope, v.db.catalog.refused)
    ensures SafeStage(v, WriteFields(w, ctx), WriteFields(v, ctx))
  {
    hide CreateWrites, Merge, WritesStay, Call, Twin, Safe, Own, OwnCards, Refs;
    var writes := CreateWrites(ctx, w.db.catalog.refs);
    TwinMeans(w, v);
    BatchStays(ctx, v);
    SafeSelf(v);
    var o := Opts("batch", false, None);
    UpdateTwin(w, v, Some(ctx.hostname), Some(ctx.uuid), Merge(writes), o);
    var s, t := UpdateRow(w, ctx, Merge(writes), o), UpdateRow(v, ctx, Merge(writes), o);
    if s.answer == Got(Nothing) {
      SafeScope(v, t.w);
      ReplayTwin(s.w, t.w, ctx, writes);
      SafeThen(v, t.w, ReplayWrites(s.w, ctx, writes), ReplayWrites(t.w, ctx, writes));
    }
  }

  lemma SafeScope(w: World, w': World)
    requires Safe(w, w')
    ensures w'.scope == w.scope
  {
  }

  lemma FinalTwin(w: World, v: World, ctx: Context)
    requires Twin(w, v) && ctx.hostname in v.scope.hostnames
    ensures SafeTurn(v, UpdateRow(w, ctx, FinalState(ctx, w.errors), RECORDS_STATE), UpdateRow(v, ctx, FinalState(ctx, v.errors), RECORDS_STATE))
  {
    hide Twin, Call, Failed, StatusDetails, SafeTurn;
    TwinMeans(w, v);
    UpdateTwin(w, v, Some(ctx.hostname), Some(ctx.uuid), FinalState(ctx, w.errors), RECORDS_STATE);
  }

  lemma FillTwin(w: World, v: World, ctx: Context, server: Id, cards: seq<Card>)
    requires Twin(w, v) && ctx.hostname in v.scope.hostnames && server in Own(v)
    requires WritesStay(CreateWrites(ctx, v.db.catalog.refs), v.scope, v.db.catalog.refused)
    ensures TwinOutcome(Fill(w, ctx, server, cards), Fill(v, ctx, server, cards))
  {
    hide Twin, Safe, Own, OwnCards, Refs, UpdateRow, WriteFields, Persist, FinalState, CreateWrites;
    FieldsTwin(w, v, ctx);
    var s, t := WriteFields(w, ctx), WriteFields(v, ctx);
    if s.Fine? {
      SafeOwn(v, t.w, server);
      PersistTwin(s.w, t.w, ctx, server, cards);
      var a, b := Persist(s.w, ctx, server, cards), Persist(t.w, ctx, server, cards);
      if a.Fine? {
        SafeScope(t.w, b.w);
        FinalTwin(a.w, b.w, ctx);
      }
    }
  }

  lemma PersistTwin(w: World, v: World, ctx: Context, server: Id, cards: seq<Card>)
    requires Twin(w, v) && server in Own(v)
    ensures SafeStage(v, Persist(w, ctx, server, cards), Persist(v, ctx, server, cards))
  {
    hide Twin, Own, SafeStage, PersistCards, BondTaken;
    CardsTwin(w, v, ctx.dcName, server, cards, BondTaken(cards), {});
  }
}
