/**
 Runs in which every request is heard: answered, or refused for good. A refusal never keeps
 a create from asking for the rest of its plan, nor an attach from going on where the source
 degrades; what is retried, and what raises, is the transport's doing alone.
 */
module HeardRuns {
  import opened Basics
  import opened BondNames
  import opened Cmdb
  import opened Planning
  import opened Retry
  import opened RetryProofs
  import opened StoreFacts
  import opened CallLaws
  import opened Attachments
  import opened Tags
  import opened TagsProofs
  import opened Create
  import opened FieldProofs
  import opened NetProofs
  import opened LiveProofs

  /** No request of this run was lost on the way, and no reply. */
  ghost predicate AllHeard(w: World, w': World) {
    w.log <= w'.log && forall i :: |w.log| <= i < |w'.log| && w'.log[i].Sent? ==> !Mute(w'.log[i].fault)
  }

  lemma HeardPart(w: World, w1: World, w': World)
    requires w.log <= w1.log <= w'.log && AllHeard(w, w')
    ensures AllHeard(w, w1) && AllHeard(w1, w')
  {
    assert forall i :: 0 <= i < |w1.log| ==> w1.log[i] == w'.log[i];
  }

  /** The first request decides; it is refused only by its fate, or by the store for its value. */
  ghost predicate FirstDecides(w: World, op: Op, o: Opts, t: Turn) {
    && |t.w.log| == |w.log| + 1 && w.log <= t.w.log
    && t.w.log[|w.log|].Sent? && t.w.log[|w.log|].op == op
    && (t.answer.Got? || (o.raises && t.answer == Threw(CmdbAbort)))
    && (t.w.log[|w.log|].fault == Replies && Accepts(w.db, op) ==> t.answer.Got? && t.w.errors == w.errors)
    && (t.w.log[|w.log|].fault == Replies && Accepts(w.db, op) && Quiet(w) ==> t.answer.reply == Reads(w.db, op, FreshId(w)))
  }

  lemma CallHeard(w: World, op: Op, sel: Selector, o: Opts)
    requires AllHeard(w, Call(w, op, sel, o).w)
    ensures FirstDecides(w, op, o, Call(w, op, sel, o))
  {
    hide Reads, Commit, Met;
    var sent, t := Exchange(w, op), Call(w, op, sel, o);
    assert t == Issue(w, op, sel, o, 1);
    assert sent.w.log[|w.log|] == Sent(op, Fate(w), sent.answer);
    assert sent.w.log <= t.w.log;
    assert t.w.log[|w.log|] == Sent(op, Fate(w), sent.answer);
  }

  // -- what was asked for -----------------------------------------------------------------------

  /** The requests sent, in order. */
  function Asks(log: seq<Event>): seq<Op> {
    if log == [] then []
    else
      var last := log[|log| - 1];
      Asks(log[..|log| - 1]) + if last.Sent? then [last.op] else []
  }

  /** The requests a run sent after those of an earlier world. */
  ghost function Since(w: World, w': World): seq<Op>
    requires w.log <= w'.log
  {
    Asks(w'.log[|w.log|..])
  }

  lemma {:induction false} AsksConcat(a: seq<Event>, b: seq<Event>)
    ensures Asks(a + b) == Asks(a) + Asks(b)
  {
    if b == [] {
      assert a + b == a;
    } else {
      var front, last := b[..|b| - 1], b[|b| - 1];
      assert (a + b)[..|a + b| - 1] == a + front;
      AsksConcat(a, front);
    }
  }

  lemma SinceTwo(w: World, w1: World, w': World)
    requires w.log <= w1.log <= w'.log
    ensures Since(w, w') == Since(w, w1) + Since(w1, w')
  {
    assert w'.log[|w.log|..] == w1.log[|w.log|..] + w'.log[|w1.log|..];
    AsksConcat(w1.log[|w.log|..], w'.log[|w1.log|..]);
  }

  lemma SinceOne(w: World, op: Op, o: Opts, t: Turn)
    requires FirstDecides(w, op, o, t)
    ensures Since(w, t.w) == [op]
  {
    var more := t.w.log[|w.log|..];
    assert more == [t.w.log[|w.log|]] && more[..0] == [] && Asks([]) == [];
  }

  // -- the cards -----------------------------------------------------------------------------------

  function IpInserts(): Op -> bool { (op: Op) => op.InsertIp? }
  function EndpointInserts(): Op -> bool { (op: Op) => op.InsertEndpoint? }

  /** The address rows asked for. */
  function AskedRows(ops: seq<Op>): seq<AddrRow> { Map(Filter(ops, IpInserts()), (op: Op) => if op.InsertIp? then AddrRow(op.addr, op.kind, op.prefix) else AddrRow("", None, None)) }

  /** The endpoints asked for: name, mac and notes. */
  datatype Shape = Shape(name: string, mac: Option<string>, notes: Option<string>)
  function AskedCards(ops: seq<Op>): seq<Shape> {
    Map(Filter(ops, EndpointInserts()), (op: Op) => if op.InsertEndpoint? then Shape(op.name, op.mac, op.notes) else Shape("", None, None))
  }

  /** The endpoints of a plan. */
  function Shapes(cards: seq<Card>, names: seq<string>): seq<Shape>
    requires |names| == |cards|
    decreases |cards|
  {
    if cards == [] then [] else [Shape(names[0], cards[0].mac, cards[0].name)] + Shapes(cards[1..], names[1..])
  }

  lemma CardsConcat(a: seq<Op>, b: seq<Op>)
    ensures AskedCards(a + b) == AskedCards(a) + AskedCards(b) && AskedRows(a + b) == AskedRows(a) + AskedRows(b)
  {
    FilterConcat(a, b, EndpointInserts());
    FilterConcat(a, b, IpInserts());
    hide Filter, Map;
    MapConcat(Filter(a, EndpointInserts()), Filter(b, EndpointInserts()), (op: Op) => if op.InsertEndpoint? then Shape(op.name, op.mac, op.notes) else Shape("", None, None));
    MapConcat(Filter(a, IpInserts()), Filter(b, IpInserts()), (op: Op) => if op.InsertIp? then AddrRow(op.addr, op.kind, op.prefix) else AddrRow("", None, None));
  }

  lemma AskedOne(op: Op)
    ensures AskedCards([op]) == if op.InsertEndpoint? then [Shape(op.name, op.mac, op.notes)] else []
    ensures AskedRows([op]) == if op.InsertIp? then [AddrRow(op.addr, op.kind, op.prefix)] else []
  {
    assert [op][1..] == [];
  }

  lemma AskedNone()
    ensures AskedCards([]) == [] && AskedRows([]) == []
  {
  }

  /** No prefix lookup of this run was refused. */
  ghost predicate PrefixesTold(w: World, w': World) {
    w.log <= w'.log && forall i :: |w.log| <= i < |w'.log| && w'.log[i].Sent? && w'.log[i].op.SelectPrefixes? ==> w'.log[i].fault == Replies
  }

  lemma ToldPart(w: World, w1: World, w': World)
    requires w.log <= w1.log <= w'.log && PrefixesTold(w, w')
    ensures PrefixesTold(w, w1) && PrefixesTold(w1, w')
  {
    assert forall i :: 0 <= i < |w1.log| ==> w1.log[i] == w'.log[i];
  }

  /** A heard prefix lookup: one request, and what the store holds unless it was refused. */
  lemma PrefixHeard(w: World, addr: string, dc: string)
    requires Quiet(w) && AllHeard(w, NetPrefix(w, addr, dc, Some(RECORDED)).w)
    ensures
      var s := NetPrefix(w, addr, dc, Some(RECORDED));
      && s.Fine? && Quiet(s.w) && Since(w, s.w) == [SelectPrefixes(dc)]
      && (PrefixesTold(w, s.w) ==> s.value == First(PrefixesOf(w.db, dc), Covering(addr)))
  {
    hide Attempts, First, Asks;
    var o := Opts("network_prefix", false, Some(RECORDED));
    CallHeard(w, SelectPrefixes(dc), NoSelector, o);
    SinceOne(w, SelectPrefixes(dc), o, Call(w, SelectPrefixes(dc), NoSelector, o));
    ReadCall(w, SelectPrefixes(dc), o);
    var t := Call(w, SelectPrefixes(dc), NoSelector, o);
    assert t.w.log[|w.log|].fault == Replies ==> t.w.errors == w.errors;
    PrefixReplied(w, t, dc, o);
  }

  lemma PrefixReplied(w: World, t: Turn, dc: string, o: Opts)
    requires t.answer.Got? && (t.answer.reply == Reads(w.db, SelectPrefixes(dc), FreshId(w)) || t.answer.reply == Nothing)
    ensures t.answer.reply.PrefixList? ==> t.answer.reply.prefixes == PrefixesOf(w.db, dc)
  {
  }

  // -- every card and every address is asked for -----------------------------------------------------

  lemma IpHeard(w: World, card: Id, addr: string, p: Prefix, kind: Option<string>)
    requires Quiet(w)
    ensures
      var op := InsertIp(card, addr, kind, Some(p.id));
      var t := Call(w, op, Once(SelectIp(addr, card, Some(p.id))), RECORDS_IP);
      AllHeard(w, t.w) ==> t.answer.Got? && Since(w, t.w) == [op] && Quiet(t.w)
  {
    hide Attempts, Asks, AllHeard;
    var op, sel := InsertIp(card, addr, kind, Some(p.id)), Once(SelectIp(addr, card, Some(p.id)));
    if AllHeard(w, Call(w, op, sel, RECORDS_IP).w) {
      CallHeard(w, op, sel, RECORDS_IP);
      SinceOne(w, op, RECORDS_IP, Call(w, op, sel, RECORDS_IP));
    }
  }

  ghost predicate AddrsAll(w: World, s: Stage<set<Option<string>>>, dc: string, addrs: seq<string>, used: set<Option<string>>) {
    w.log <= s.w.log && (AllHeard(w, s.w) ==>
      && s.Fine? && Quiet(s.w) && AskedCards(Since(w, s.w)) == []
      && (PrefixesTold(w, s.w) ==>
            && AskedRows(Since(w, s.w)) == PlanAddrs(PrefixesOf(w.db, dc), addrs, used)
            && s.value == PlanUsed(PrefixesOf(w.db, dc), addrs, used)))
  }

  lemma NoneSince(w: World)
    ensures Since(w, w) == []
  {
  }

  /** What a run asks for in two parts. */
  lemma AskedTwo(w: World, w1: World, w': World)
    requires w.log <= w1.log <= w'.log
    ensures AskedCards(Since(w, w')) == AskedCards(Since(w, w1)) + AskedCards(Since(w1, w'))
    ensures AskedRows(Since(w, w')) == AskedRows(Since(w, w1)) + AskedRows(Since(w1, w'))
  {
    hide Since, AskedCards, AskedRows;
    SinceTwo(w, w1, w');
    CardsConcat(Since(w, w1), Since(w1, w'));
  }

  lemma AddrSkipped(w: World, w1: World, s: Stage<set<Option<string>>>, dc: string, addrs: seq<string>, used: set<Option<string>>)
    requires addrs != [] && AllHeard(w, s.w) && w.log <= w1.log <= s.w.log && Since(w, w1) == [SelectPrefixes(dc)]
    requires w1.db.catalog == w.db.catalog && AddrsAll(Recorded(w1, "network_prefix"), s, dc, addrs[1..], used)
    requires PrefixesTold(w, s.w) ==> First(PrefixesOf(w.db, dc), Covering(addrs[0])).None?
    ensures AddrsAll(w, s, dc, addrs, used)
  {
    hide First, Covering, AskedCards, AskedRows, Asks;
    var w2 := Recorded(w1, "network_prefix");
    HeardPart(w, w1, s.w);
    assert AllHeard(w2, s.w) && Since(w2, s.w) == Since(w1, s.w);
    AskedTwo(w, w1, s.w);
    AskedOne(SelectPrefixes(dc));
    if PrefixesTold(w, s.w) {
      ToldPart(w, w1, s.w);
      assert PrefixesTold(w2, s.w);
    }
    hide AllHeard, PrefixesTold, Since;
    assert forall x: seq<AddrRow> :: [] + x == x;
  }

  lemma AddrPlaced(w: World, w1: World, w2: World, s: Stage<set<Option<string>>>, dc: string, card: Id, addrs: seq<string>, used: set<Option<string>>, p: Prefix)
    requires addrs != [] && AllHeard(w, s.w) && w.log <= w1.log <= w2.log <= s.w.log
    requires Since(w, w1) == [SelectPrefixes(dc)] && Since(w1, w2) == [InsertIp(card, addrs[0], Some(ResolveIpType(p.kind, used)), Some(p.id))]
    requires w2.db.catalog == w.db.catalog && AddrsAll(w2, s, dc, addrs[1..], used + {Some(ResolveIpType(p.kind, used))})
    requires PrefixesTold(w, s.w) ==> First(PrefixesOf(w.db, dc), Covering(addrs[0])) == Some(p)
    ensures AddrsAll(w, s, dc, addrs, used)
  {
    hide First, Covering, AskedCards, AskedRows, Asks, Since;
    HeardPart(w, w2, s.w);
    AskedTwo(w, w1, s.w);
    AskedTwo(w1, w2, s.w);
    AskedOne(SelectPrefixes(dc));
    AskedOne(InsertIp(card, addrs[0], Some(ResolveIpType(p.kind, used)), Some(p.id)));
    if PrefixesTold(w, s.w) { ToldPart(w, w2, s.w); }
    hide AllHeard, PrefixesTold;
  }

  /** The addresses of a card: each covered one is asked for once, with its kind, whatever became of the others. */
  lemma {:induction false} AddrsAsked(w: World, dc: string, card: Id, addrs: seq<string>, used: set<Option<string>>)
    requires Quiet(w)
    ensures AddrsAll(w, PersistAddrs(w, dc, card, addrs, used), dc, addrs, used)
    decreases |addrs|
  {
    hide NetPrefix, Call, AllHeard, PrefixesTold, Since, First, AskedCards, AskedRows, Covering, PrefixesOf, AddrsAll, PlanAddrs, PlanUsed;
    var s := PersistAddrs(w, dc, card, addrs, used);
    if addrs == [] {
      NoAddrs(w, dc, used);
    } else if AllHeard(w, s.w) {
      var prefix := NetPrefix(w, addrs[0], dc, Some(RECORDED));
      HeardPart(w, prefix.w, s.w);
      PrefixHeard(w, addrs[0], dc);
      if PrefixesTold(w, s.w) { ToldPart(w, prefix.w, s.w); }
      match prefix.value
      case None =>
        AddrsAsked(Recorded(prefix.w, "network_prefix"), dc, card, addrs[1..], used);
        AddrSkipped(w, prefix.w, s, dc, addrs, used);
      case Some(p) =>
        var kind := Some(ResolveIpType(p.kind, used));
        var op := InsertIp(card, addrs[0], kind, Some(p.id));
        var t := Call(prefix.w, op, Once(SelectIp(addrs[0], card, Some(p.id))), RECORDS_IP);
        HeardPart(prefix.w, t.w, s.w);
        IpHeard(prefix.w, card, addrs[0], p, kind);
        AddrsAsked(t.w, dc, card, addrs[1..], used + {kind});
        AddrPlaced(w, prefix.w, t.w, s, dc, card, addrs, used, p);
    } else {
      NotAllHeard(w, s, dc, addrs, used);
    }
  }

  lemma NotAllHeard(w: World, s: Stage<set<Option<string>>>, dc: string, addrs: seq<string>, used: set<Option<string>>)
    requires w.log <= s.w.log && !AllHeard(w, s.w)
    ensures AddrsAll(w, s, dc, addrs, used)
  {
  }

  lemma NoAddrs(w: World, dc: string, used: set<Option<string>>)
    requires Quiet(w)
    ensures AddrsAll(w, Fine(w, used), dc, [], used)
  {
    AskedNone();
    NoneSince(w);
  }

  ghost predicate CardsAll(w: World, s: Stage<()>, cards: seq<Card>, taken: seq<string>) {
    w.log <= s.w.log && (AllHeard(w, s.w) ==> s.Fine? && Quiet(s.w) && AskedCards(Since(w, s.w)) == Shapes(cards, EndpointNames(cards, taken)))
  }

  lemma CardHeard(w: World, server: Id, card: Card, name: string)
    requires Quiet(w)
    ensures
      var op := InsertEndpoint(server, name, card.mac, card.name);
      var t := Call(w, op, CardSelector(server, card, name), RECORDS_ENDPOINT);
      AllHeard(w, t.w) ==>
        && t.answer.Got? && AskedCards(Since(w, t.w)) == [Shape(name, card.mac, card.name)] && Quiet(t.w)
  {
    hide Attempts, Asks, AllHeard, AskedCards;
    var op, sel := InsertEndpoint(server, name, card.mac, card.name), CardSelector(server, card, name);
    if AllHeard(w, Call(w, op, sel, RECORDS_ENDPOINT).w) {
      CallHeard(w, op, sel, RECORDS_ENDPOINT);
      SinceOne(w, op, RECORDS_ENDPOINT, Call(w, op, sel, RECORDS_ENDPOINT));
      AskedOne(op);
    }
  }

  lemma NoCardsAsked(w: World, taken: seq<string>)
    requires Quiet(w)
    ensures CardsAll(w, Fine(w, ()), [], taken)
  {
    AskedNone();
    NoneSince(w);
  }

  lemma CardAsked(w: World, w1: World, w2: World, s: Stage<()>, cards: seq<Card>, taken: seq<string>)
    requires cards != [] && AllHeard(w, s.w) && w.log <= w1.log <= w2.log <= s.w.log
    requires AskedCards(Since(w, w1)) == [Shape(CardName(cards[0], taken), cards[0].mac, cards[0].name)] && AskedCards(Since(w1, w2)) == []
    requires CardsAll(w2, s, cards[1..], if cards[0].placeholder then taken + [CardName(cards[0], taken)] else taken)
    ensures CardsAll(w, s, cards, taken)
  {
    hide Since, AskedCards, AskedRows, CardName, EndpointNames, Shapes, AllHeard;
    HeardPart(w, w2, s.w);
    AskedTwo(w, w1, s.w);
    AskedTwo(w1, w2, s.w);
    ShapesFirst(cards, taken);
  }

  lemma ShapesFirst(cards: seq<Card>, taken: seq<string>)
    requires cards != []
    ensures
      var name := CardName(cards[0], taken);
      var taken' := if cards[0].placeholder then taken + [name] else taken;
      Shapes(cards, EndpointNames(cards, taken)) ==
        [Shape(name, cards[0].mac, cards[0].name)] + Shapes(cards[1..], EndpointNames(cards[1..], taken'))
  {
    hide NextBond, Bond;
    var names := EndpointNames(cards, taken);
    var taken' := if cards[0].placeholder then taken + [CardName(cards[0], taken)] else taken;
    assert names == [CardName(cards[0], taken)] + EndpointNames(cards[1..], taken');
  }

  /** A run that is heard asks for every planned endpoint once, in order, whichever of them were refused. */
  lemma {:induction false} CardsAsked(w: World, dc: string, server: Id, cards: seq<Card>, taken: seq<string>, used: set<Option<string>>)
    requires Quiet(w)
    ensures CardsAll(w, PersistCards(w, dc, server, cards, taken, used), cards, taken)
    decreases |cards|
  {
    hide PersistAddrs, Call, AllHeard, Since, AskedCards, AskedRows, CardsAll, EndpointNames, Shapes, CardName, CardSelector, PlanAddrs, PlanUsed;
    var s := PersistCards(w, dc, server, cards, taken, used);
    if cards == [] {
      NoCardsAsked(w, taken);
    } else if !AllHeard(w, s.w) {
      CardsUnheard(w, s, cards, taken);
    } else {
      var card, name := cards[0], CardName(cards[0], taken);
      var taken' := if card.placeholder then taken + [name] else taken;
      var t := Call(w, InsertEndpoint(server, name, card.mac, card.name), CardSelector(server, card, name), RECORDS_ENDPOINT);
      HeardPart(w, t.w, s.w);
      CardHeard(w, server, card, name);
      if t.answer.reply.EndpointRef? {
        var id := t.answer.reply.endpoint;
        var addrs := PersistAddrs(t.w, dc, id, card.addresses, used);
        HeardPart(t.w, addrs.w, s.w);
        AddrsAsked(t.w, dc, id, card.addresses, used);
        CardsAsked(addrs.w, dc, server, cards[1..], taken', addrs.value);
        CardAsked(w, t.w, addrs.w, s, cards, taken);
      } else {
        NothingAsked(t.w);
        CardsAsked(t.w, dc, server, cards[1..], taken', used);
        CardAsked(w, t.w, t.w, s, cards, taken);
      }
    }
  }

  lemma NothingAsked(w: World)
    ensures AskedCards(Since(w, w)) == []
  {
    AskedNone();
    NoneSince(w);
  }

  lemma CardsUnheard(w: World, s: Stage<()>, cards: seq<Card>, taken: seq<string>)
    requires w.log <= s.w.log && !AllHeard(w, s.w)
    ensures CardsAll(w, s, cards, taken)
  {
  }

  // -- filling in a server --------------------------------------------------------------------------------

  lemma UpdateHeard(w: World, ctx: Context, mutation: Cols, o: Opts)
    requires !o.raises && AllHeard(w, UpdateRow(w, ctx, mutation, o).w)
    ensures UpdateRow(w, ctx, mutation, o).answer.Got? && UpdateRow(w, ctx, mutation, o).w.crowd == w.crowd
  {
    hide Attempts, AllHeard;
    CallHeard(w, UpdateServers(Some(ctx.hostname), Some(ctx.uuid), mutation), NoSelector, o);
  }

  lemma {:induction false} ReplayHeard(w: World, ctx: Context, writes: seq<FieldWrite>)
    requires AllHeard(w, ReplayWrites(w, ctx, writes).w)
    ensures ReplayWrites(w, ctx, writes).Fine?
    decreases |writes|
  {
    hide UpdateRow, AllHeard;
    if writes != [] {
      var s, t := ReplayWrites(w, ctx, writes), UpdateRow(w, ctx, writes[0].mutation, WriteOpts(writes[0]));
      assert t.w.log <= s.w.log;
      HeardPart(w, t.w, s.w);
      UpdateHeard(w, ctx, writes[0].mutation, WriteOpts(writes[0]));
      ReplayHeard(t.w, ctx, writes[1..]);
    }
  }

  lemma FieldsHeard(w: World, ctx: Context)
    requires AllHeard(w, WriteFields(w, ctx).w)
    ensures WriteFields(w, ctx).Fine?
  {
    hide UpdateRow, AllHeard, CreateWrites, Merge, ReplayWrites;
    BatchNeverEmpty(ctx, w.db.catalog.refs);
    var writes, o := CreateWrites(ctx, w.db.catalog.refs), Opts("batch", false, None);
    var s, t := WriteFields(w, ctx), UpdateRow(w, ctx, Merge(writes), o);
    assert t.w.log <= s.w.log;
    HeardPart(w, t.w, s.w);
    UpdateHeard(w, ctx, Merge(writes), o);
    if t.answer.reply == Nothing { ReplayHeard(t.w, ctx, writes); }
  }

  /** Once its row is there, a create that is heard returns, whatever was refused: every field is written or recorded, every card asked for. */
  lemma FillReturns(w: World, ctx: Context, server: Id, cards: seq<Card>)
    requires Quiet(w) && AllHeard(w, Fill(w, ctx, server, cards).w)
    ensures Fill(w, ctx, server, cards).status.Returned?
  {
    hide UpdateRow, AllHeard, WriteFields, PersistCards, FinalState, CardsAll;
    var o, fields := Fill(w, ctx, server, cards), WriteFields(w, ctx);
    assert fields.w.log <= o.w.log;
    HeardPart(w, fields.w, o.w);
    FieldsHeard(w, ctx);
    var net := Persist(fields.w, ctx, server, cards);
    assert net.w.log <= o.w.log;
    HeardPart(fields.w, net.w, o.w);
    CardsAsked(fields.w, ctx.dcName, server, cards, BondTaken(cards), {});
    CardsFine(fields.w, net, cards, BondTaken(cards));
    HeardPart(fields.w, net.w, o.w);
    UpdateHeard(net.w, ctx, FinalState(ctx, net.w.errors), RECORDS_STATE);
  }

  lemma CardsFine(w: World, s: Stage<()>, cards: seq<Card>, taken: seq<string>)
    requires CardsAll(w, s, cards, taken) && AllHeard(w, s.w)
    ensures s.Fine?
  {
  }
}
