/** A clean create leaves exactly the planned rows, whatever faults and retries led there. */
module LiveProofs {
  import opened Basics
  import opened BondNames
  import opened Cmdb
  import opened Planning
  import opened Retry
  import opened RetryProofs
  import opened StoreFacts
  import opened Attachments
  import opened Tags
  import opened TagsProofs
  import opened Create
  import opened FieldProofs
  import opened Invariants
  import opened NetProofs

  // -- what is on a server, without the keys -----------------------------------------------------

  datatype AddrRow = AddrRow(addr: string, kind: Option<string>, prefix: Option<Id>)
  datatype CardRow = CardRow(name: string, mac: Option<string>, notes: Option<string>, addrs: seq<AddrRow>)

  function Strip(): Ip -> AddrRow { (ip: Ip) => AddrRow(ip.addr, ip.kind, ip.prefix) }

  function RowView(db: Db): Endpoint -> CardRow {
    (e: Endpoint) => CardRow(e.name, e.mac, e.notes, Map(Filter(db.ips, OnEndpoint(e.id)), Strip()))
  }

  /** The cards of a server and the addresses on them. */
  function Live(db: Db, server: Id): seq<CardRow> { Map(Filter(db.endpoints, OnServer(server)), RowView(db)) }

  // -- the plan, as rows ----------------------------------------------------------------------------

  function PlanAddrs(prefixes: seq<Prefix>, addrs: seq<string>, used: set<Option<string>>): seq<AddrRow> {
    if addrs == [] then []
    else
      match First(prefixes, Covering(addrs[0]))
      case None => PlanAddrs(prefixes, addrs[1..], used)
      case Some(p) =>
        var kind := Some(ResolveIpType(p.kind, used));
        [AddrRow(addrs[0], kind, Some(p.id))] + PlanAddrs(prefixes, addrs[1..], used + {kind})
  }

  function PlanUsed(prefixes: seq<Prefix>, addrs: seq<string>, used: set<Option<string>>): set<Option<string>> {
    if addrs == [] then used
    else
      match First(prefixes, Covering(addrs[0]))
      case None => PlanUsed(prefixes, addrs[1..], used)
      case Some(p) => PlanUsed(prefixes, addrs[1..], used + {Some(ResolveIpType(p.kind, used))})
  }

  function PlanCards(prefixes: seq<Prefix>, cards: seq<Card>, taken: seq<string>, used: set<Option<string>>): seq<CardRow> {
    if cards == [] then []
    else
      var card, name := cards[0], CardName(cards[0], taken);
      [CardRow(name, card.mac, card.name, PlanAddrs(prefixes, card.addresses, used))]
        + PlanCards(prefixes, cards[1..], if card.placeholder then taken + [name] else taken, PlanUsed(prefixes, card.addresses, used))
  }

  function PrefixesOf(db: Db, dc: string): seq<Prefix> { if dc in db.catalog.prefixes then db.catalog.prefixes[dc] else [] }

  // -- one insert -------------------------------------------------------------------------------------

  /** An insert that nothing in the store answers for, and that was not reported, landed. */
  lemma CleanInsert(w: World, op: Op, sel: Selector, o: Opts, t: Turn)
    requires op.Insert() && sel.Once? && InsertResult(w, op, sel, o, t) && o.report.Some?
    requires Finds(sel, w.db) == Nothing && t.answer.Got? && t.w.errors == w.errors
    ensures t.w.db == Commit(w.db, op, FreshId(w)) && t.w.minted == w.minted + 1
    ensures t.answer.reply == Reads(w.db, op, FreshId(w)) || t.answer.reply == Finds(sel, Commit(w.db, op, FreshId(w)))
  {
    hide Commit, Reads, Finds;
  }

  lemma PrefixExact(w: World, addr: string, dc: string)
    requires Quiet(w)
    ensures
      var s := NetPrefix(w, addr, dc, Some(RECORDED));
      s.Fine? && s.value.Some? ==> s.value == First(PrefixesOf(w.db, dc), Covering(addr))
  {
    ReadCall(w, SelectPrefixes(dc), Opts("network_prefix", false, Some(RECORDED)));
    hide Call;
  }

  // -- the addresses of one card ----------------------------------------------------------------------

  /** None of these addresses is on the card yet, and they are pairwise distinct. */
  ghost predicate AddrsAhead(db: Db, card: Id, addrs: seq<string>) {
    Distinct(addrs) && forall ip :: ip in db.ips && ip.endpointId == card ==> ip.addr !in addrs
  }

  /** No re-select can take one of these addresses for another: there is one attempt, or each is new on the card. */
  ghost predicate AddrsSafe(w: World, card: Id, addrs: seq<string>) { Tries(w) == 1 || AddrsAhead(w.db, card, addrs) }

  /** These rows are the planned ones for these addresses, all on this card. */
  ghost predicate PlannedRows(rows: seq<Ip>, prefixes: seq<Prefix>, card: Id, addrs: seq<string>, used: set<Option<string>>) {
    (forall x :: x in rows ==> x.endpointId == card) && Map(rows, Strip()) == PlanAddrs(prefixes, addrs, used)
  }

  /** Exactly the planned rows were added. */
  ghost predicate AddrsExact(w: World, s: Stage<set<Option<string>>>, dc: string, card: Id, addrs: seq<string>, used: set<Option<string>>, rows: seq<Ip>) {
    s.Fine? && s.w.errors == w.errors ==>
      && s.w.db.endpoints == w.db.endpoints && s.w.db.ips == w.db.ips + rows
      && PlannedRows(rows, PrefixesOf(w.db, dc), card, addrs, used)
      && s.value == PlanUsed(PrefixesOf(w.db, dc), addrs, used)
  }

  lemma AddrFirst(db: Db, db': Db, op: Op, addrs: seq<string>, id: Id)
    requires addrs != [] && op.InsertIp? && op.addr == addrs[0] && AddrsAhead(db, op.endpointId, addrs)
    requires db' == Commit(db, op, id)
    ensures AddrsAhead(db', op.endpointId, addrs[1..])
  {
    forall ip | ip in db'.ips && ip.endpointId == op.endpointId ensures ip.addr !in addrs[1..] {
      if ip in db.ips {
        assert forall a :: a in addrs[1..] ==> a in addrs;
      } else {
        assert ip.addr == addrs[0];
      }
    }
  }

  lemma IpNotThere(db: Db, card: Id, addrs: seq<string>, prefix: Option<Id>)
    requires addrs != [] && AddrsAhead(db, card, addrs)
    ensures Finds(Once(SelectIp(addrs[0], card, prefix)), db) == Nothing
  {
    assert addrs[0] in addrs;
    assert First(db.ips, SameIp(addrs[0], card, prefix)).None?;
  }

  /** With one attempt an insert that replied and was not reported landed. */
  lemma OneTryInsert(w: World, op: Op, sel: Selector, o: Opts)
    requires Quiet(w) && Tries(w) == 1 && op.Insert() && o.report.Some?
    ensures
      var t := Call(w, op, sel, o);
      && Quiet(t.w) && w.errors <= t.w.errors
      && (t.answer.Got? && t.w.errors == w.errors ==>
            t.w.db == Commit(w.db, op, FreshId(w)) && t.answer.reply == Reads(w.db, op, FreshId(w)))
  {
    hide Commit, Reads;
    assert Attempts(w, op, sel, o, 1) == Issue(w, op, sel, o, 1);
    InsertExchange(w, op);
    hide Exchange;
  }

  /** One address of a clean run: its row landed. */
  lemma AddrLanded(w: World, card: Id, addrs: seq<string>, p: Prefix, used: set<Option<string>>)
    requires Quiet(w) && addrs != [] && AddrsSafe(w, card, addrs)
    ensures
      var op := AddrOp(card, addrs[0], p, used);
      var t := Call(w, op, Once(SelectIp(addrs[0], card, Some(p.id))), RECORDS_IP);
      && Quiet(t.w) && w.errors <= t.w.errors && w.db.catalog == t.w.db.catalog
      && (t.answer.Got? && t.w.errors == w.errors ==>
            && t.w.db == w.db.(ips := w.db.ips + [Ip(FreshId(w), card, addrs[0], op.kind, Some(p.id))])
            && AddrsSafe(t.w, card, addrs[1..]))
  {
    hide Reads, Finds;
    var op := AddrOp(card, addrs[0], p, used);
    var sel := Once(SelectIp(addrs[0], card, Some(p.id)));
    IpKeyDetected(w.db, op);
    InsertCall(w, op, sel, RECORDS_IP);
    var t := Call(w, op, sel, RECORDS_IP);
    if Tries(w) == 1 {
      OneTryInsert(w, op, sel, RECORDS_IP);
    } else if t.answer.Got? && t.w.errors == w.errors {
      IpNotThere(w.db, card, addrs, Some(p.id));
      CleanInsert(w, op, sel, RECORDS_IP, t);
      hide Call, Finds, Reads, InsertResult;
      AddrFirst(w.db, t.w.db, op, addrs, FreshId(w));
    }
    hide *;
  }

  lemma AddrsCons(w: World, w1: World, s: Stage<set<Option<string>>>, dc: string, card: Id, addrs: seq<string>, p: Prefix,
                  used: set<Option<string>>, x: Ip, rows: seq<Ip>)
    requires addrs != [] && First(PrefixesOf(w.db, dc), Covering(addrs[0])) == Some(p)
    requires w1.db == w.db.(ips := w.db.ips + [x]) && w1.errors == w.errors
    requires x.endpointId == card && Strip()(x) == AddrRow(addrs[0], AddrOp(card, addrs[0], p, used).kind, Some(p.id))
    requires AddrsExact(w1, s, dc, card, addrs[1..], used + {AddrOp(card, addrs[0], p, used).kind}, rows)
    ensures AddrsExact(w, s, dc, card, addrs, used, [x] + rows)
  {
    assert PrefixesOf(w1.db, dc) == PrefixesOf(w.db, dc);
    PlanFirst(PrefixesOf(w.db, dc), addrs, p, used);
    hide PrefixesOf, PlanAddrs, PlanUsed, PlannedRows, Strip, First, Covering, AddrOp, ResolveIpType;
    assert w1.db.ips == w.db.ips + [x] && w1.db.endpoints == w.db.endpoints;
    SeqAssoc(w.db.ips, x, rows);
    if s.Fine? && s.w.errors == w.errors {
      RowsCons(PrefixesOf(w.db, dc), card, addrs, p, used, x, rows);
    }
  }

  lemma SeqAssoc<T>(a: seq<T>, x: T, b: seq<T>)
    ensures a + [x] + b == a + ([x] + b)
  {
  }

  lemma RowsCons(prefixes: seq<Prefix>, card: Id, addrs: seq<string>, p: Prefix, used: set<Option<string>>, x: Ip, rows: seq<Ip>)
    requires addrs != [] && First(prefixes, Covering(addrs[0])) == Some(p) && x.endpointId == card
    requires Strip()(x) == AddrRow(addrs[0], AddrOp(card, addrs[0], p, used).kind, Some(p.id))
    requires PlannedRows(rows, prefixes, card, addrs[1..], used + {AddrOp(card, addrs[0], p, used).kind})
    ensures PlannedRows([x] + rows, prefixes, card, addrs, used)
  {
    PlanFirst(prefixes, addrs, p, used);
    assert ([x] + rows)[1..] == rows;
    hide PlanAddrs, Strip, ResolveIpType;
  }

  lemma PlanFirst(prefixes: seq<Prefix>, addrs: seq<string>, p: Prefix, used: set<Option<string>>)
    requires addrs != [] && First(prefixes, Covering(addrs[0])) == Some(p)
    ensures
      var kind := Some(ResolveIpType(p.kind, used));
      && PlanAddrs(prefixes, addrs, used) == [AddrRow(addrs[0], kind, Some(p.id))] + PlanAddrs(prefixes, addrs[1..], used + {kind})
      && PlanUsed(prefixes, addrs, used) == PlanUsed(prefixes, addrs[1..], used + {kind})
  {
  }

  // -- reports only accumulate -----------------------------------------------------------------------

  lemma ExchangeErrors(w: World, op: Op)
    ensures Exchange(w, op).w.errors == w.errors && Exchange(w, op).w.budget == w.budget
  {
    hide Reads, Commit;
  }

  lemma {:induction false} IssueErrors(w: World, op: Op, sel: Selector, o: Opts, attempt: nat)
    requires 1 <= attempt <= Tries(w)
    ensures w.errors <= Issue(w, op, sel, o, attempt).w.errors
    decreases Weight(sel), 1, Tries(w) - attempt, 0
  {
    ExchangeErrors(w, op);
    hide Exchange;
    var sent := Exchange(w, op);
    if sent.answer.Threw? && !sent.answer.exn.Perm? && attempt < Tries(w) {
      CallErrors(Nap(sent.w, attempt), op, sel, o, attempt + 1);
    }
  }

  lemma {:induction false} CallErrors(w: World, op: Op, sel: Selector, o: Opts, attempt: nat)
    requires 1 <= attempt <= Tries(w)
    ensures w.errors <= Attempts(w, op, sel, o, attempt).w.errors
    decreases Weight(sel), 1, Tries(w) - attempt, 1
  {
    hide Reads, Commit, Issue, Exchange;
    IssueErrors(w, op, sel, o, attempt);
    if !sel.NoSelector? && attempt > 1 {
      var found := Reselect(w, sel);
      ReselectErrors(w, sel);
      hide Reselect;
      IssueErrors(found.w, op, sel, o, attempt);
      if found.answer.Threw? && attempt < Tries(w) { CallErrors(Nap(found.w, attempt), op, sel, o, attempt + 1); }
    }
  }

  lemma {:induction false} ReselectErrors(w: World, sel: Selector)
    requires !sel.NoSelector?
    ensures w.errors <= Reselect(w, sel).w.errors
    decreases Weight(sel), 0, 0, 0
  {
    hide Reads, Commit, Attempts;
    if !sel.Once? { CallErrors(w, SelectAttachedIp(sel.addr, sel.uuid), NoSelector, PROBE, 1); }
  }

  lemma CallReports(w: World, op: Op, sel: Selector, o: Opts)
    ensures w.errors <= Call(w, op, sel, o).w.errors
  {
    CallErrors(w, op, sel, o, 1);
  }

  lemma {:induction false} AddrsErrors(w: World, dc: string, card: Id, addrs: seq<string>, used: set<Option<string>>)
    ensures w.errors <= PersistAddrs(w, dc, card, addrs, used).w.errors
    decreases |addrs|
  {
    hide Attempts, Reads, Commit;
    if addrs != [] {
      var prefix := NetPrefix(w, addrs[0], dc, Some(RECORDED));
      CallErrors(w, SelectPrefixes(dc), NoSelector, Opts("network_prefix", false, Some(RECORDED)), 1);
      if prefix.Fine? && prefix.value.None? {
        AddrsErrors(Recorded(prefix.w, "network_prefix"), dc, card, addrs[1..], used);
      } else if prefix.Fine? {
        var p := prefix.value.value;
        var op := AddrOp(card, addrs[0], p, used);
        CallErrors(prefix.w, op, Once(SelectIp(addrs[0], card, Some(p.id))), RECORDS_IP, 1);
        var t := Call(prefix.w, op, Once(SelectIp(addrs[0], card, Some(p.id))), RECORDS_IP);
        if t.answer.Got? { AddrsErrors(t.w, dc, card, addrs[1..], used + {op.kind}); }
      }
    }
  }

  lemma Unclean(w: World, w1: World, s: Stage<set<Option<string>>>, dc: string, card: Id, addrs: seq<string>, used: set<Option<string>>)
    requires s.Broken? || (w.errors <= w1.errors <= s.w.errors && w1.errors != w.errors)
    ensures AddrsExact(w, s, dc, card, addrs, used, [])
  {
  }

  lemma AddrsHere(w: World, w': World, card: Id, addrs: seq<string>)
    requires AddrsSafe(w, card, addrs) && w'.db.ips == w.db.ips && w'.budget == w.budget
    ensures AddrsSafe(w', card, addrs)
  {
  }

  lemma {:induction false} AddrsPlanned(w: World, dc: string, card: Id, addrs: seq<string>, used: set<Option<string>>) returns (rows: seq<Ip>)
    requires Quiet(w) && AddrsSafe(w, card, addrs)
    ensures AddrsExact(w, PersistAddrs(w, dc, card, addrs, used), dc, card, addrs, used, rows)
    decreases |addrs|
  {
    rows := [];
    var s := PersistAddrs(w, dc, card, addrs, used);
    if addrs != [] {
      var prefix := NetPrefix(w, addrs[0], dc, Some(RECORDED));
      PrefixLookup(w, addrs[0], dc);
      PrefixExact(w, addrs[0], dc);
      hide NetPrefix, Call, AddrsSafe, AddrsExact, PlanAddrs, PlanUsed, PrefixesOf;
      if prefix.Broken? {
        Unclean(w, w, s, dc, card, addrs, used);
      } else if prefix.value.None? {
        var w1 := Recorded(prefix.w, "network_prefix");
        AddrsErrors(w1, dc, card, addrs[1..], used);
        Unclean(w, w1, s, dc, card, addrs, used);
      } else {
        var p := prefix.value.value;
        var op := AddrOp(card, addrs[0], p, used);
        AddrsHere(w, prefix.w, card, addrs);
        AddrLanded(prefix.w, card, addrs, p, used);
        var t := Call(prefix.w, op, Once(SelectIp(addrs[0], card, Some(p.id))), RECORDS_IP);
        if t.answer.Threw? {
          Unclean(w, w, s, dc, card, addrs, used);
        } else if t.w.errors != w.errors {
          AddrsErrors(t.w, dc, card, addrs[1..], used + {op.kind});
          Unclean(w, t.w, s, dc, card, addrs, used);
        } else {
          rows := AddrsPlanned(t.w, dc, card, addrs[1..], used + {op.kind});
          var x := Ip(FreshId(prefix.w), card, addrs[0], op.kind, Some(p.id));
          AddrsCons(w, t.w, s, dc, card, addrs, p, used, x, rows);
          rows := [x] + rows;
        }
      }
    }
  }

  // -- the cards -----------------------------------------------------------------------------------

  /** A placeholder's mac finds only its own row: no card before it, and none on the server, has it. */
  ghost predicate MacsAhead(db: Db, server: Id, cards: seq<Card>) {
    forall i :: 0 <= i < |cards| && cards[i].placeholder ==>
      && (forall e :: e in db.endpoints && e.serverId == server ==> e.mac != cards[i].mac)
      && (forall j :: 0 <= j < i ==> cards[j].mac != cards[i].mac)
  }

  /** No re-select can take one of these cards for another: there is one attempt, or each placeholder's mac is new. */
  ghost predicate MacsSafe(w: World, server: Id, cards: seq<Card>) { Tries(w) == 1 || MacsAhead(w.db, server, cards) }

  lemma CardNotThere(db: Db, server: Id, cards: seq<Card>, name: string, done: seq<string>)
    requires cards != [] && MacsAhead(db, server, cards) && NamedWithin(db, server, done) && name !in done
    ensures Finds(CardSelector(server, cards[0], name), db) == Nothing
  {
    if cards[0].placeholder { assert First(db.endpoints, WithMac(server, cards[0].mac)).None?; }
    else { assert First(db.endpoints, Named(server, name)).None?; }
  }

  /** Once the row is there, its selector finds it and no other. */
  lemma CardFound(db: Db, server: Id, card: Card, name: string, id: Id)
    requires Finds(CardSelector(server, card, name), db) == Nothing
    ensures Finds(CardSelector(server, card, name), Commit(db, CardOp(server, card, name), id)) == EndpointRef(id, name, false)
  {
    var row := Endpoint(id, server, name, card.mac, card.name);
    hide First, Filter;
    if card.placeholder {
      FirstSnoc(db.endpoints, row, WithMac(server, card.mac));
    } else {
      FirstSnoc(db.endpoints, row, Named(server, name));
    }
  }

  function NewCard(server: Id, card: Card, name: string, id: Id): Endpoint { Endpoint(id, server, name, card.mac, card.name) }

  lemma MacsRest(w: World, w': World, server: Id, cards: seq<Card>, row: Endpoint)
    requires cards != [] && MacsSafe(w, server, cards) && row.mac == cards[0].mac && w'.budget == w.budget
    requires w'.db.endpoints == w.db.endpoints + [row]
    ensures MacsSafe(w', server, cards[1..])
  {
    var db' := w'.db;
    if Tries(w) == 1 { return; }
    forall i | 0 <= i < |cards[1..]| && cards[1..][i].placeholder
      ensures forall e :: e in db'.endpoints && e.serverId == server ==> e.mac != cards[1..][i].mac
      ensures forall j :: 0 <= j < i ==> cards[1..][j].mac != cards[1..][i].mac
    {
      assert cards[1..][i] == cards[i + 1];
      assert forall j :: 0 <= j < i ==> cards[1..][j] == cards[j + 1];
    }
  }

  /** One card of a clean run: its row landed, and the reply names it. */
  lemma CardLanded(w: World, server: Id, cards: seq<Card>, name: string, done: seq<string>)
    requires Quiet(w) && cards != [] && MacsSafe(w, server, cards) && NamedWithin(w.db, server, done) && name !in done
    ensures
      var op, sel := CardOp(server, cards[0], name), CardSelector(server, cards[0], name);
      var t := Call(w, op, sel, RECORDS_ENDPOINT);
      t.answer.Got? && t.w.errors == w.errors ==>
        && t.w.db == w.db.(endpoints := w.db.endpoints + [NewCard(server, cards[0], name, FreshId(w))])
        && t.answer.reply == EndpointRef(FreshId(w), name, false)
  {
    var op, sel := CardOp(server, cards[0], name), CardSelector(server, cards[0], name);
    CardKeyDetected(w.db, server, cards[0], name);
    InsertCall(w, op, sel, RECORDS_ENDPOINT);
    var t := Call(w, op, sel, RECORDS_ENDPOINT);
    hide Call, Finds, InsertResult, MacsAhead, NamedWithin, Detects;
    if Tries(w) == 1 {
      OneTryInsert(w, op, sel, RECORDS_ENDPOINT);
    } else if t.answer.Got? && t.w.errors == w.errors {
      CardNotThere(w.db, server, cards, name, done);
      CardFound(w.db, server, cards[0], name, FreshId(w));
      CleanInsert(w, op, sel, RECORDS_ENDPOINT, t);
    }
  }

  /** A new card with its addresses adds one row to what is on the server, and changes no other. */
  lemma LiveGrows(db: Db, db': Db, server: Id, row: Endpoint, rows: seq<Ip>)
    requires db'.endpoints == db.endpoints + [row] && row.serverId == server && db'.ips == db.ips + rows
    requires forall x :: x in rows ==> x.endpointId == row.id
    requires forall e :: e in db.endpoints ==> e.id != row.id
    requires forall ip :: ip in db.ips ==> ip.endpointId != row.id
    ensures Live(db', server) == Live(db, server) + [CardRow(row.name, row.mac, row.notes, Map(rows, Strip()))]
  {
    var before := Filter(db.endpoints, OnServer(server));
    FilterSnoc(db.endpoints, row, OnServer(server));
    forall e | e in before ensures RowView(db')(e) == RowView(db)(e) { OldView(db, db', e, row, rows); }
    NewView(db, db', row, rows);
    assert Live(db', server) == Map(before + [row], RowView(db'));
    hide Filter, RowView, Map;
    MapConcat(before, [row], RowView(db'));
    assert Map([row], RowView(db')) == [RowView(db')(row)] by { MapOne(row, RowView(db')); }
    MapEqual(before, RowView(db'), RowView(db));
  }

  lemma OldView(db: Db, db': Db, e: Endpoint, row: Endpoint, rows: seq<Ip>)
    requires db'.ips == db.ips + rows && e.id != row.id && forall x :: x in rows ==> x.endpointId == row.id
    ensures RowView(db')(e) == RowView(db)(e)
  {
    FilterConcat(db.ips, rows, OnEndpoint(e.id));
    FilterNone(rows, OnEndpoint(e.id));
    hide Filter, Map;
  }

  lemma NewView(db: Db, db': Db, row: Endpoint, rows: seq<Ip>)
    requires db'.ips == db.ips + rows && forall x :: x in rows ==> x.endpointId == row.id
    requires forall ip :: ip in db.ips ==> ip.endpointId != row.id
    ensures RowView(db')(row) == CardRow(row.name, row.mac, row.notes, Map(rows, Strip()))
  {
    hide Filter, Map;
    FilterConcat(db.ips, rows, OnEndpoint(row.id));
    FilterNone(db.ips, OnEndpoint(row.id));
    FilterAll(rows, OnEndpoint(row.id));
    assert Filter(db'.ips, OnEndpoint(row.id)) == rows;
  }

  // -- all cards of a clean run ----------------------------------------------------------------------

  ghost predicate DistinctWithin(cards: seq<Card>) { forall c :: c in cards ==> Distinct(c.addresses) }

  ghost predicate CardsExact(w: World, s: Stage<()>, dc: string, server: Id, cards: seq<Card>, taken: seq<string>, used: set<Option<string>>) {
    s.Fine? && s.w.errors == w.errors ==>
      Live(s.w.db, server) == Live(w.db, server) + PlanCards(PrefixesOf(w.db, dc), cards, taken, used)
  }

  lemma CardsUnclean(w: World, w1: World, s: Stage<()>, dc: string, server: Id, cards: seq<Card>, taken: seq<string>, used: set<Option<string>>)
    requires s.Broken? || (w.errors <= w1.errors <= s.w.errors && w1.errors != w.errors)
    ensures CardsExact(w, s, dc, server, cards, taken, used)
  {
  }

  lemma CardsCons(w: World, w1: World, s: Stage<()>, dc: string, server: Id, cards: seq<Card>, taken: seq<string>,
                  used: set<Option<string>>, rows: seq<Ip>)
    requires cards != [] && w1.errors == w.errors && w1.db.catalog == w.db.catalog
    requires PlannedRows(rows, PrefixesOf(w.db, dc), FreshId(w), cards[0].addresses, used)
    requires Live(w1.db, server) == Live(w.db, server)
      + [CardRow(CardName(cards[0], taken), cards[0].mac, cards[0].name, Map(rows, Strip()))]
    requires
      var taken' := if cards[0].placeholder then taken + [CardName(cards[0], taken)] else taken;
      CardsExact(w1, s, dc, server, cards[1..], taken', PlanUsed(PrefixesOf(w.db, dc), cards[0].addresses, used))
    ensures CardsExact(w, s, dc, server, cards, taken, used)
  {
    hide Live, CardName, PlanUsed, PlanAddrs, Map, Strip;
    var taken' := if cards[0].placeholder then taken + [CardName(cards[0], taken)] else taken;
    SeqAssoc(Live(w.db, server), CardRow(CardName(cards[0], taken), cards[0].mac, cards[0].name, Map(rows, Strip())),
             PlanCards(PrefixesOf(w.db, dc), cards[1..], taken', PlanUsed(PrefixesOf(w.db, dc), cards[0].addresses, used)));
  }

  lemma FreshCard(w: World)
    requires Sound(w)
    ensures forall e :: e in w.db.endpoints ==> e.id != FreshId(w)
    ensures forall ip :: ip in w.db.ips ==> ip.endpointId != FreshId(w)
  {
  }

  lemma FreshAddrs(w: World, w': World, addrs: seq<string>)
    requires Sound(w) && w'.db.ips == w.db.ips && w'.budget == w.budget && (Tries(w) == 1 || Distinct(addrs))
    ensures AddrsSafe(w', FreshId(w), addrs)
  {
    FreshCard(w);
  }

  lemma MacsStay(w: World, w': World, server: Id, cards: seq<Card>)
    requires MacsSafe(w, server, cards) && w'.db.endpoints == w.db.endpoints && w'.budget == w.budget
    ensures MacsSafe(w', server, cards)
  {
  }

  lemma {:induction false} CardsErrors(w: World, dc: string, server: Id, cards: seq<Card>, taken: seq<string>, used: set<Option<string>>)
    ensures w.errors <= PersistCards(w, dc, server, cards, taken, used).w.errors
    decreases |cards|
  {
    hide Attempts, PersistAddrs;
    if cards != [] {
      var card, name := cards[0], CardName(cards[0], taken);
      var taken' := if card.placeholder then taken + [name] else taken;
      CallErrors(w, CardOp(server, card, name), CardSelector(server, card, name), RECORDS_ENDPOINT, 1);
      var t := Call(w, CardOp(server, card, name), CardSelector(server, card, name), RECORDS_ENDPOINT);
      if t.answer.Got? && t.answer.reply.EndpointRef? {
        var addrs := PersistAddrs(t.w, dc, t.answer.reply.endpoint, card.addresses, used);
        AddrsErrors(t.w, dc, t.answer.reply.endpoint, card.addresses, used);
        if addrs.Fine? { CardsErrors(addrs.w, dc, server, cards[1..], taken', addrs.value); }
      } else if t.answer.Got? {
        CardsErrors(t.w, dc, server, cards[1..], taken', used);
      }
    }
  }

  /** What a clean card leaves the rest of the cards to start from. */
  ghost predicate Onward(w: World, w1: World, server: Id, cards: seq<Card>, used: set<Option<string>>, done: seq<string>) {
    && Quiet(w1) && Sound(w1) && Born(server, w1.session, w1.minted) && UsedKnown(w1.db, server, used)
    && NamedWithin(w1.db, server, done) && MacsSafe(w1, server, cards) && w1.db.catalog == w.db.catalog
  }

  /** One card and its addresses, in a clean run. */
  lemma CardPlanned(
    w: World, t: Turn, s: Stage<set<Option<string>>>, dc: string, server: Id, cards: seq<Card>, taken: seq<string>,
    used: set<Option<string>>, done: seq<string>, rows: seq<Ip>)
    requires cards != [] && Sound(w) && MacsSafe(w, server, cards) && t.w.budget == w.budget && s.w.budget == w.budget && Born(server, w.session, w.minted)
    requires CardDone(w, t, server, done, used)
    requires t.w.db == w.db.(endpoints := w.db.endpoints + [NewCard(server, cards[0], CardName(cards[0], taken), FreshId(w))])
    requires AddrsDone(t.w, s, server, cards[0].addresses, used)
    requires AddrsExact(t.w, s, dc, FreshId(w), cards[0].addresses, used, rows)
    requires s.Fine? && t.w.errors == w.errors && s.w.errors == w.errors
    ensures Onward(w, s.w, server, cards[1..], PlanUsed(PrefixesOf(w.db, dc), cards[0].addresses, used), done)
    ensures Live(s.w.db, server) == Live(w.db, server)
      + [CardRow(CardName(cards[0], taken), cards[0].mac, cards[0].name, Map(rows, Strip()))]
    ensures PlannedRows(rows, PrefixesOf(w.db, dc), FreshId(w), cards[0].addresses, used)
  {
    var row := NewCard(server, cards[0], CardName(cards[0], taken), FreshId(w));
    hide CardName, PlanAddrs, PlanUsed, Live, Sound, NamesUnique, KindsUnique, UsedKnown, Placed, CardOn;
    assert PrefixesOf(t.w.db, dc) == PrefixesOf(w.db, dc);
    hide PrefixesOf;
    FreshCard(w);
    MacsRest(w, t.w, server, cards, row);
    MacsStay(t.w, s.w, server, cards[1..]);
    NamedStays(t.w.db, s.w.db, server, done);
    LiveGrows(w.db, s.w.db, server, row, rows);
  }

  lemma DistinctRest(cards: seq<Card>)
    requires cards != [] && DistinctWithin(cards)
    ensures Distinct(cards[0].addresses) && DistinctWithin(cards[1..])
  {
    assert cards[0] in cards && forall c :: c in cards[1..] ==> c in cards;
  }

  /**
   A run that finishes and reports nothing adds exactly the planned cards and
   addresses, in their order, whatever faults it met on the way.
   */
  lemma {:induction false} CardsPlanned(
    w: World, dc: string, server: Id, cards: seq<Card>, taken: seq<string>, used: set<Option<string>>, done: seq<string>)
    requires Quiet(w) && Sound(w) && Born(server, w.session, w.minted) && UsedKnown(w.db, server, used)
    requires NamedWithin(w.db, server, done) && NamesAhead(EndpointNames(cards, taken), done)
    requires MacsSafe(w, server, cards) && (Tries(w) == 1 || DistinctWithin(cards))
    ensures CardsExact(w, PersistCards(w, dc, server, cards, taken, used), dc, server, cards, taken, used)
    decreases |cards|, 1
  {
    hide Sound, NamesUnique, KindsUnique, UsedKnown, NamedWithin, MacsSafe, Born, NamesAhead, EndpointNames, CardName, Call, DistinctWithin, CardDone, PersistAddrs, Live, PrefixesOf;
    var s := PersistCards(w, dc, server, cards, taken, used);
    if cards != [] {
      hide CardsExact, PlanCards;
      var card, name := cards[0], CardName(cards[0], taken);
      var taken' := if card.placeholder then taken + [name] else taken;
      NamesStep(cards, taken);
      NextAhead(name, EndpointNames(cards[1..], taken'), done);
      CardStage(w, server, card, name, done, used);
      CardLanded(w, server, cards, name, done);
      CallReports(w, CardOp(server, card, name), CardSelector(server, card, name), RECORDS_ENDPOINT);
      var t := Call(w, CardOp(server, card, name), CardSelector(server, card, name), RECORDS_ENDPOINT);
      if t.answer.Threw? {
        CardsUnclean(w, w, s, dc, server, cards, taken, used);
      } else if t.w.errors != w.errors {
        ReportedRest(w, t, dc, server, cards, taken, used);
      } else {
        CardCleanRest(w, t, dc, server, cards, taken, used, done + [name]);
      }
    }
  }

  /** A card that was reported: the run is not clean. */
  lemma ReportedRest(w: World, t: Turn, dc: string, server: Id, cards: seq<Card>, taken: seq<string>, used: set<Option<string>>)
    requires cards != []
    requires
      var name := CardName(cards[0], taken);
      t == Call(w, CardOp(server, cards[0], name), CardSelector(server, cards[0], name), RECORDS_ENDPOINT)
    requires t.answer.Got? && w.errors <= t.w.errors && t.w.errors != w.errors
    ensures CardsExact(w, PersistCards(w, dc, server, cards, taken, used), dc, server, cards, taken, used)
  {
    hide Call, CardName, PersistAddrs, CardsExact;
    var name := CardName(cards[0], taken);
    var taken' := if cards[0].placeholder then taken + [name] else taken;
    if t.answer.reply.EndpointRef? {
      var addrs := PersistAddrs(t.w, dc, t.answer.reply.endpoint, cards[0].addresses, used);
      AddrsErrors(t.w, dc, t.answer.reply.endpoint, cards[0].addresses, used);
      if addrs.Fine? { CardsErrors(addrs.w, dc, server, cards[1..], taken', addrs.value); }
    } else {
      CardsErrors(t.w, dc, server, cards[1..], taken', used);
    }
    CardsUnclean(w, t.w, PersistCards(w, dc, server, cards, taken, used), dc, server, cards, taken, used);
  }

  /** A card that landed: its addresses, and the rest of the run. */
  lemma {:induction false} CardCleanRest(
    w: World, t: Turn, dc: string, server: Id, cards: seq<Card>, taken: seq<string>, used: set<Option<string>>, done: seq<string>)
    requires cards != [] && Quiet(w) && Sound(w) && MacsSafe(w, server, cards) && Born(server, w.session, w.minted)
    requires
      var name := CardName(cards[0], taken);
      && t == Call(w, CardOp(server, cards[0], name), CardSelector(server, cards[0], name), RECORDS_ENDPOINT)
      && t.answer == Got(EndpointRef(FreshId(w), name, false))
      && t.w.db == w.db.(endpoints := w.db.endpoints + [NewCard(server, cards[0], name, FreshId(w))])
      && NamesAhead(EndpointNames(cards[1..], if cards[0].placeholder then taken + [name] else taken), done)
    requires CardDone(w, t, server, done, used) && t.w.errors == w.errors && (Tries(w) == 1 || DistinctWithin(cards))
    ensures CardsExact(w, PersistCards(w, dc, server, cards, taken, used), dc, server, cards, taken, used)
    decreases |cards|, 0
  {
    hide CardName, Call, EndpointNames, NamesAhead, CardsExact, PlanAddrs, PlanUsed, PlanCards, MacsSafe, Live, NamesUnique, KindsUnique, Sound, UsedKnown, NamedWithin, PrefixesOf, Born, CardOn, Placed, PersistAddrs, NextBond;
    var name := CardName(cards[0], taken);
    var taken' := if cards[0].placeholder then taken + [name] else taken;
    var s := PersistCards(w, dc, server, cards, taken, used);
    if DistinctWithin(cards) { DistinctRest(cards); }
    hide DistinctWithin;
    FreshAddrs(w, t.w, cards[0].addresses);
    AddrsReady(w, t, server, done, used);
    hide CardDone;
    AddrsStage(t.w, dc, server, FreshId(w), cards[0].addresses, used);
    var rows := AddrsPlanned(t.w, dc, FreshId(w), cards[0].addresses, used);
    AddrsErrors(t.w, dc, FreshId(w), cards[0].addresses, used);
    var addrs := PersistAddrs(t.w, dc, FreshId(w), cards[0].addresses, used);
    hide PersistAddrs, AddrsDone, AddrsExact;
    if addrs.Broken? {
      CardsUnclean(w, w, s, dc, server, cards, taken, used);
    } else if addrs.w.errors != w.errors {
      CardsErrors(addrs.w, dc, server, cards[1..], taken', addrs.value);
      CardsUnclean(w, addrs.w, s, dc, server, cards, taken, used);
    } else {
      CardPlanned(w, t, addrs, dc, server, cards, taken, used, done, rows);
      UsedAsPlanned(t.w, addrs, dc, FreshId(w), cards[0].addresses, used, rows);
      assert PrefixesOf(t.w.db, dc) == PrefixesOf(w.db, dc) by { SamePrefixes(t.w.db, w.db, dc); }
      CardsPlanned(addrs.w, dc, server, cards[1..], taken', addrs.value, done);
      CardsCons(w, addrs.w, s, dc, server, cards, taken, used, rows);
    }
  }

  lemma SamePrefixes(a: Db, b: Db, dc: string)
    requires a.catalog == b.catalog
    ensures PrefixesOf(a, dc) == PrefixesOf(b, dc)
  {
  }

  lemma AddrsReady(w: World, t: Turn, server: Id, done: seq<string>, used: set<Option<string>>)
    requires CardDone(w, t, server, done, used) && t.answer.Got? && t.answer.reply != Nothing
    ensures Quiet(t.w) && Sound(t.w) && UsedKnown(t.w.db, server, used)
    ensures t.answer.reply.EndpointRef? && CardOn(t.w.db, server, t.answer.reply.endpoint)
  {
  }

  lemma UsedAsPlanned(w: World, s: Stage<set<Option<string>>>, dc: string, card: Id, addrs: seq<string>, used: set<Option<string>>, rows: seq<Ip>)
    requires AddrsExact(w, s, dc, card, addrs, used, rows) && s.Fine? && s.w.errors == w.errors
    ensures s.value == PlanUsed(PrefixesOf(w.db, dc), addrs, used)
  {
  }

  // -- the fields of a clean run -----------------------------------------------------------------------

  ghost predicate RowExact(w: World, s: Stage<()>, kept: seq<Server>, id: Id, cols: Cols, ctx: Context) {
    s.Fine? && s.w.errors == w.errors ==> RowOf(s.w.db, kept, id, cols, ctx)
  }

  lemma {:induction false} ReplayErrors(w: World, ctx: Context, writes: seq<FieldWrite>)
    ensures w.errors <= ReplayWrites(w, ctx, writes).w.errors
    decreases |writes|
  {
    hide Attempts;
    if writes != [] {
      CallErrors(w, UpdateServers(Some(ctx.hostname), Some(ctx.uuid), writes[0].mutation), NoSelector, WriteOpts(writes[0]), 1);
      var t := UpdateRow(w, ctx, writes[0].mutation, WriteOpts(writes[0]));
      if t.answer.Got? { ReplayErrors(t.w, ctx, writes[1..]); }
    }
  }

  /** A replay that reports nothing applied every write. */
  lemma {:induction false} ReplayClean(w: World, kept: seq<Server>, id: Id, cols: Cols, ctx: Context, writes: seq<FieldWrite>)
    requires Quiet(w) && RowOf(w.db, kept, id, cols, ctx) && SafeWrites(writes, ctx, w.db.catalog.refused)
    ensures RowExact(w, ReplayWrites(w, ctx, writes), kept, id, Replay(cols, writes, {}), ctx)
    decreases |writes|
  {
    hide UpdateRow;
    if writes != [] {
      var x, rest := writes[0], writes[1..];
      UpdateRowCall(w, kept, id, cols, ctx, x.mutation, WriteOpts(x));
      var t := UpdateRow(w, ctx, x.mutation, WriteOpts(x));
      ReplayFirst(cols, x, rest, {});
      assert writes == [x] + rest && TagsProofs.Taken(x, {});
      hide UpdateRow, RowOf, Replay, SafeWrites, KeepsNames, SameCards;
      if t.answer.Got? {
        ReplayErrors(t.w, ctx, rest);
        if t.w.errors == w.errors { ReplayClean(t.w, kept, id, cols + x.mutation, ctx, rest); }
      }
    }
  }

  /** The fields of a run that reports nothing: every write, the last one to each column. */
  lemma FieldsClean(w: World, kept: seq<Server>, id: Id, cols: Cols, ctx: Context)
    requires Quiet(w) && RowOf(w.db, kept, id, cols, ctx)
    requires SafeWrites(CreateWrites(ctx, w.db.catalog.refs), ctx, w.db.catalog.refused)
    ensures RowExact(w, WriteFields(w, ctx), kept, id, cols + Merge(CreateWrites(ctx, w.db.catalog.refs)), ctx)
  {
    var writes := CreateWrites(ctx, w.db.catalog.refs);
    var batch := Merge(writes);
    var o := Opts("batch", false, None);
    hide UpdateRow, RowOf, CreateWrites, Merge, Replay, SameCards;
    BatchNeverEmpty(ctx, w.db.catalog.refs);
    SafeBatch(ctx, w.db);
    CreateWritesOneKey(ctx, w.db.catalog.refs);
    SinglesFromOnes(writes, STEP_COLUMNS + LeftColumns(ctx));
    BatchIsReplay(cols, writes, {});
    BatchIsReplay(cols + batch, writes, {});
    assert cols + batch + batch == cols + batch;
    UpdateRowCall(w, kept, id, cols, ctx, batch, o);
    var t := UpdateRow(w, ctx, batch, o);
    hide KeepsNames, SafeWrites;
    if t.answer == Got(Nothing) {
      var now := if RowOf(t.w.db, kept, id, cols + batch, ctx) then cols + batch else cols;
      ReplayErrors(t.w, ctx, writes);
      ReplayClean(t.w, kept, id, now, ctx, writes);
    }
  }
}
