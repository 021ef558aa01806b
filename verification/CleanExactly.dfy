/**
 Exactly when every clean finish leaves the same cards and addresses: a re-select must not
 be able to take one of the message's own rows for another.
 */
module CleanExactly {
  import opened Basics
  import opened BondNames
  import opened Cmdb
  import opened Planning
  import opened Retry
  import opened RetryProofs
  import opened StoreFacts
  import opened Attachments
  import opened Tags
  import opened Create
  import opened FieldProofs
  import opened Invariants
  import opened NetProofs
  import opened CreateProofs
  import opened Tapes
  import opened LiveProofs
  import opened CleanCreate
  import opened RenameProofs

  /** Some prefix covers each of these addresses. */
  ghost predicate AddrsCovered(prefixes: seq<Prefix>, addrs: seq<string>) {
    forall a :: a in addrs ==> First(prefixes, Covering(a)).Some?
  }

  ghost predicate CardsCovered(prefixes: seq<Prefix>, cards: seq<Card>) {
    forall c :: c in cards ==> AddrsCovered(prefixes, c.addresses)
  }

  /** This stage of a run finished and reported nothing. */
  ghost predicate Unreported<T>(w: World, s: Stage<T>) { s.Fine? && s.w.errors == w.errors }

  /** No row carries or refers to an endpoint key of this session that is still to come. */
  ghost predicate CardsBorn(w: World) {
    && (forall e :: e in w.db.endpoints ==> Born(e.id, w.session, w.minted))
    && (forall ip :: ip in w.db.ips ==> Born(ip.endpointId, w.session, w.minted))
  }

  /** It finished, reported nothing, and no fault is ahead any more. */
  ghost predicate Smoothly<T>(w: World, s: Stage<T>) { s.Fine? && SmoothOn(w, s.w) }

  /** With no faults ahead: quiet, and past the tape. */
  ghost predicate Smooth(w: World) { Quiet(w) && w.tape == [] }

  /** What every smooth stretch of a run keeps. */
  ghost predicate SmoothOn(w: World, w': World) {
    && Smooth(w') && w'.errors == w.errors && w'.budget == w.budget && w'.session == w.session
    && w.minted <= w'.minted && w'.db.catalog == w.db.catalog && |w.trail| <= |w'.trail|
  }

  // -- smooth stretches -------------------------------------------------------------------------

  function AddrRowOf(w: World, card: Id, addr: string, p: Prefix, used: set<Option<string>>): Ip {
    Ip(FreshId(w), card, addr, AddrOp(card, addr, p, used).kind, Some(p.id))
  }

  /** After the look-up of one address's prefix and the insert of its row. */
  function AddrHead(w: World, dc: string, card: Id, addr: string, p: Prefix, used: set<Option<string>>): World {
    Call(NetPrefix(w, addr, dc, Some(RECORDED)).w, AddrOp(card, addr, p, used), Once(SelectIp(addr, card, Some(p.id))), RECORDS_IP).w
  }

  lemma SmoothTrans(a: World, b: World, c: World)
    requires SmoothOn(a, b) && SmoothOn(b, c)
    ensures SmoothOn(a, c) && Asked(a, c) == Asked(a, b) + Asked(b, c)
  {
  }

  /** One address with no faults ahead: two requests and its row; the tape ahead is not looked at. */
  lemma AddrReplied(w: World, dc: string, card: Id, addrs: seq<string>, p: Prefix, used: set<Option<string>>, rest: seq<Fault>)
    requires Smooth(w) && addrs != [] && First(PrefixesOf(w.db, dc), Covering(addrs[0])) == Some(p)
    ensures
      var w1, used' := AddrHead(w, dc, card, addrs[0], p, used), used + {AddrOp(card, addrs[0], p, used).kind};
      && SmoothOn(w, w1) && Asked(w, w1) == 2 && w1.db == w.db.(ips := w.db.ips + [AddrRowOf(w, card, addrs[0], p, used)])
      && PersistAddrs(w, dc, card, addrs, used) == PersistAddrs(w1, dc, card, addrs[1..], used')
      && PersistAddrs(After(w, 2, rest), dc, card, addrs, used) == PersistAddrs(w1.(tape := rest), dc, card, addrs[1..], used')
  {
    var look := NetPrefix(w, addrs[0], dc, Some(RECORDED));
    NetPrefixPads(w, addrs[0], dc, Some(RECORDED), Reps(1) + rest);
    TwoPads(w, 1, 1, rest);
    var op, sel := AddrOp(card, addrs[0], p, used), Once(SelectIp(addrs[0], card, Some(p.id)));
    CallPads(look.w, op, sel, RECORDS_IP, rest);
    hide Call, NetPrefix, First;
  }

  /** The rows of one card's addresses, in their order. */
  ghost predicate RowsOn(db: Db, db': Db, card: Id, rows: seq<Ip>) {
    db' == db.(ips := db.ips + rows) && forall x :: x in rows ==> x.endpointId == card
  }

  lemma RowsFirst(a: Db, b: Db, c: Db, card: Id, row: Ip, rows: seq<Ip>)
    requires b == a.(ips := a.ips + [row]) && row.endpointId == card && RowsOn(b, c, card, rows)
    ensures RowsOn(a, c, card, [row] + rows)
  {
    SeqAssoc(a.ips, row, rows);
  }

  /** One address and then the rest, from either end of the tape. */
  lemma AddrsStep(w: World, dc: string, card: Id, addrs: seq<string>, p: Prefix, used: set<Option<string>>, rest: seq<Fault>, s: Stage<set<Option<string>>>)
    requires Smooth(w) && addrs != [] && First(PrefixesOf(w.db, dc), Covering(addrs[0])) == Some(p)
    requires
      var w1, used' := AddrHead(w, dc, card, addrs[0], p, used), used + {AddrOp(card, addrs[0], p, used).kind};
      && s == PersistAddrs(w1, dc, card, addrs[1..], used') && SmoothOn(w1, s.w)
      && PersistAddrs(After(w1, Asked(w1, s.w), rest), dc, card, addrs[1..], used') == RetapeStage(s, rest)
    ensures SmoothOn(w, s.w) && PersistAddrs(w, dc, card, addrs, used) == s
    ensures PersistAddrs(After(w, Asked(w, s.w), rest), dc, card, addrs, used) == RetapeStage(s, rest)
  {
    hide PersistAddrs, First, AddrOp, AddrHead, PrefixesOf, RetapeStage;
    var w1 := AddrHead(w, dc, card, addrs[0], p, used);
    AddrReplied(w, dc, card, addrs, p, used, Reps(Asked(w1, s.w)) + rest);
    SmoothTrans(w, w1, s.w);
    TwoPads(w, 2, Asked(w1, s.w), rest);
  }

  lemma {:induction false} AddrsReplied(w: World, dc: string, card: Id, addrs: seq<string>, used: set<Option<string>>, rest: seq<Fault>) returns (rows: seq<Ip>)
    requires Smooth(w) && AddrsCovered(PrefixesOf(w.db, dc), addrs)
    ensures
      var s := PersistAddrs(w, dc, card, addrs, used);
      && s.Fine? && SmoothOn(w, s.w) && RowsOn(w.db, s.w.db, card, rows) && |rows| == |addrs|
      && PersistAddrs(After(w, Asked(w, s.w), rest), dc, card, addrs, used) == RetapeStage(s, rest)
    decreases |addrs|
  {
    rows := [];
    if addrs == [] {
      assert Reps(0) + rest == rest;
    } else {
      assert addrs[0] in addrs && forall a :: a in addrs[1..] ==> a in addrs;
      var p := First(PrefixesOf(w.db, dc), Covering(addrs[0])).value;
      hide PersistAddrs, First, AddrOp, AddrHead, RowsOn, PrefixesOf, RetapeStage, After;
      var used' := used + {AddrOp(card, addrs[0], p, used).kind};
      var w1 := AddrHead(w, dc, card, addrs[0], p, used);
      AddrReplied(w, dc, card, addrs, p, used, []);
      SamePrefixes(w1.db, w.db, dc);
      rows := AddrsReplied(w1, dc, card, addrs[1..], used', rest);
      var s := PersistAddrs(w1, dc, card, addrs[1..], used');
      AddrsStep(w, dc, card, addrs, p, used, rest, s);
      RowsFirst(w.db, w1.db, s.w.db, card, AddrRowOf(w, card, addrs[0], p, used), rows);
      rows := [AddrRowOf(w, card, addrs[0], p, used)] + rows;
    }
  }

  function Taking(card: Card, taken: seq<string>): seq<string> {
    if card.placeholder then taken + [CardName(card, taken)] else taken
  }

  /** After the insert of one card's row. */
  function RowHead(w: World, server: Id, card: Card, name: string): World {
    Call(w, CardOp(server, card, name), CardSelector(server, card, name), RECORDS_ENDPOINT).w
  }

  /** The first card's row and addresses. */
  function CardHead(w: World, dc: string, server: Id, card: Card, taken: seq<string>, used: set<Option<string>>): Stage<set<Option<string>>> {
    PersistAddrs(RowHead(w, server, card, CardName(card, taken)), dc, FreshId(w), card.addresses, used)
  }

  /** The cards after the first one, once its addresses are there. */
  function Onwards(s: Stage<set<Option<string>>>, dc: string, server: Id, cards: seq<Card>, taken: seq<string>): Stage<()>
    requires cards != []
  {
    match s
    case Broken(w, e) => Broken(w, e)
    case Fine(w, used) => PersistCards(w, dc, server, cards[1..], Taking(cards[0], taken), used)
  }

  /** The row of one card with no faults ahead: one request, and then its addresses. */
  lemma CardReplied(w: World, dc: string, server: Id, cards: seq<Card>, taken: seq<string>, used: set<Option<string>>, rest: seq<Fault>)
    requires Smooth(w) && cards != []
    ensures
      var name := CardName(cards[0], taken);
      var w1 := RowHead(w, server, cards[0], name);
      && SmoothOn(w, w1) && Asked(w, w1) == 1 && w.minted < w1.minted
      && w1.db == w.db.(endpoints := w.db.endpoints + [NewCard(server, cards[0], name, FreshId(w))])
      && PersistCards(w, dc, server, cards, taken, used)
         == Onwards(PersistAddrs(w1, dc, FreshId(w), cards[0].addresses, used), dc, server, cards, taken)
      && PersistCards(After(w, 1, rest), dc, server, cards, taken, used)
         == Onwards(PersistAddrs(w1.(tape := rest), dc, FreshId(w), cards[0].addresses, used), dc, server, cards, taken)
  {
    var name := CardName(cards[0], taken);
    var op, sel := CardOp(server, cards[0], name), CardSelector(server, cards[0], name);
    CallPads(w, op, sel, RECORDS_ENDPOINT, rest);
    hide Call, CardSelector, CardName, PersistAddrs;
  }

  lemma BornCard(w: World)
    requires CardsBorn(w)
    ensures forall e :: e in w.db.endpoints ==> e.id != FreshId(w)
    ensures forall ip :: ip in w.db.ips ==> ip.endpointId != FreshId(w)
  {
  }

  lemma StillBorn(w: World, w': World, row: Endpoint, rows: seq<Ip>)
    requires CardsBorn(w) && w'.session == w.session && w.minted < w'.minted && row.id == FreshId(w)
    requires w'.db.endpoints == w.db.endpoints + [row] && w'.db.ips == w.db.ips + rows && forall x :: x in rows ==> x.endpointId == row.id
    ensures CardsBorn(w')
  {
  }

  /** One card as it is then found on the server. */
  function HeadRow(card: Card, taken: seq<string>, rows: seq<Ip>): CardRow {
    CardRow(CardName(card, taken), card.mac, card.name, Map(rows, Strip()))
  }

  /** What the first card's stage leaves when its row and `rows` landed. */
  ghost predicate HeadDone(w: World, s: Stage<set<Option<string>>>, server: Id, card: Card, taken: seq<string>, rows: seq<Ip>) {
    var row := NewCard(server, card, CardName(card, taken), FreshId(w));
    && s.Fine? && SmoothOn(w, s.w) && CardsBorn(s.w)
    && s.w.db.endpoints == w.db.endpoints + [row]
    && Live(s.w.db, server) == Live(w.db, server) + [HeadRow(card, taken, rows)]
  }

  lemma HeadIsDone(w: World, w1: World, s: Stage<set<Option<string>>>, server: Id, card: Card, taken: seq<string>, rows: seq<Ip>)
    requires CardsBorn(w) && SmoothOn(w, w1) && w.minted < w1.minted && s.Fine? && SmoothOn(w1, s.w)
    requires w1.db == w.db.(endpoints := w.db.endpoints + [NewCard(server, card, CardName(card, taken), FreshId(w))])
    requires RowsOn(w1.db, s.w.db, FreshId(w), rows)
    ensures HeadDone(w, s, server, card, taken, rows)
  {
    hide Live, CardName;
    var row := NewCard(server, card, CardName(card, taken), FreshId(w));
    SmoothTrans(w, w1, s.w);
    StillBorn(w, s.w, row, rows);
    HeadLive(w, s.w, server, row, rows);
  }

  /** The first card with its addresses, no faults ahead: what it leaves, and that the tape ahead is not looked at. */
  lemma HeadReplied(w: World, dc: string, server: Id, cards: seq<Card>, taken: seq<string>, used: set<Option<string>>, rest: seq<Fault>)
    returns (rows: seq<Ip>)
    requires Smooth(w) && CardsBorn(w) && cards != [] && AddrsCovered(PrefixesOf(w.db, dc), cards[0].addresses)
    ensures
      var s := CardHead(w, dc, server, cards[0], taken, used);
      && HeadDone(w, s, server, cards[0], taken, rows) && |rows| == |cards[0].addresses|
      && PersistCards(w, dc, server, cards, taken, used) == Onwards(s, dc, server, cards, taken)
      && PersistCards(After(w, Asked(w, s.w), rest), dc, server, cards, taken, used) == Onwards(RetapeStage(s, rest), dc, server, cards, taken)
  {
    hide PersistAddrs, PersistCards, CardName, PrefixesOf, Taking, RowHead, HeadDone, RowsOn, CardsBorn, AddrsCovered, Onwards, NewCard;
    var id, w1 := FreshId(w), RowHead(w, server, cards[0], CardName(cards[0], taken));
    CardReplied(w, dc, server, cards, taken, used, []);
    SamePrefixes(w1.db, w.db, dc);
    rows := AddrsReplied(w1, dc, id, cards[0].addresses, used, rest);
    var s := PersistAddrs(w1, dc, id, cards[0].addresses, used);
    CardReplied(w, dc, server, cards, taken, used, Reps(Asked(w1, s.w)) + rest);
    SmoothTrans(w, w1, s.w);
    TwoPads(w, 1, Asked(w1, s.w), rest);
    HeadIsDone(w, w1, s, server, cards[0], taken, rows);
  }

  /** The head's row is added to what is on the server. */
  lemma HeadLive(w: World, w1: World, server: Id, row: Endpoint, rows: seq<Ip>)
    requires CardsBorn(w) && row.id == FreshId(w) && row.serverId == server
    requires w1.db == w.db.(endpoints := w.db.endpoints + [row], ips := w.db.ips + rows) && forall x :: x in rows ==> x.endpointId == row.id
    ensures Live(w1.db, server) == Live(w.db, server) + [CardRow(row.name, row.mac, row.notes, Map(rows, Strip()))]
  {
    BornCard(w);
    LiveGrows(w.db, w1.db, server, row, rows);
  }

  lemma HeadMeans(w: World, s: Stage<set<Option<string>>>, server: Id, card: Card, taken: seq<string>, rows: seq<Ip>)
    requires HeadDone(w, s, server, card, taken, rows)
    ensures s.Fine? && SmoothOn(w, s.w) && CardsBorn(s.w) && Smooth(s.w) && s.w.db.catalog == w.db.catalog
    ensures Tries(s.w) == Tries(w) && s.w.errors == w.errors
    ensures Live(s.w.db, server) == Live(w.db, server) + [HeadRow(card, taken, rows)]
  {
    hide Live, CardsBorn, HeadRow;
  }

  /** With no faults ahead each card adds its row. */
  lemma {:induction false} CardsReplied(w: World, dc: string, server: Id, cards: seq<Card>, taken: seq<string>, used: set<Option<string>>) returns (more: seq<CardRow>)
    requires Smooth(w) && CardsBorn(w) && CardsCovered(PrefixesOf(w.db, dc), cards)
    ensures
      var s := PersistCards(w, dc, server, cards, taken, used);
      Smoothly(w, s) && Live(s.w.db, server) == Live(w.db, server) + more && |more| == |cards|
    decreases |cards|
  {
    hide Live, CardsBorn, Map, Call;
    more := [];
    if cards != [] {
      hide PersistCards, Live, CardName, PrefixesOf, Taking, CardHead, CardsBorn, HeadDone, HeadRow, SmoothOn, CardsCovered, AddrsCovered;
      CoveredRest(PrefixesOf(w.db, dc), cards);
      var rows := HeadReplied(w, dc, server, cards, taken, used, []);
      var s := CardHead(w, dc, server, cards[0], taken, used);
      HeadMeans(w, s, server, cards[0], taken, rows);
      SamePrefixes(s.w.db, w.db, dc);
      more := CardsReplied(s.w, dc, server, cards[1..], Taking(cards[0], taken), s.value);
      SeqAssoc(Live(w.db, server), HeadRow(cards[0], taken, rows), more);
      more := [HeadRow(cards[0], taken, rows)] + more;
    } else {
      assert Live(w.db, server) + [] == Live(w.db, server);
    }
  }

  lemma CoveredRest(prefixes: seq<Prefix>, cards: seq<Card>)
    requires cards != [] && CardsCovered(prefixes, cards)
    ensures AddrsCovered(prefixes, cards[0].addresses) && CardsCovered(prefixes, cards[1..])
  {
    assert cards[0] in cards && forall c :: c in cards[1..] ==> c in cards;
    hide AddrsCovered;
  }

  // -- one insert mistaken for another row --------------------------------------------------------

  /** The insert is not sent, and its re-select hands back a row that was there. */
  lemma Mistaken(w: World, op: Op, q: Op, o: Opts)
    requires Smooth(w) && Tries(w) >= 2 && op.Insert() && !q.Write() && Reads(w.db, q, FreshId(w)) != Nothing
    ensures
      var t := Call(w.(tape := [NotSent]), op, Once(q), o);
      && t.answer == Got(Reads(w.db, q, FreshId(w))) && SmoothOn(w, t.w) && t.w.db == w.db && t.w.minted == w.minted
  {
    hide Commit, Reads;
    var v := w.(tape := [NotSent]);
    var sent := Exchange(v, op);
    var w1 := Nap(sent.w, 1);
    assert Attempts(v, op, Once(q), o, 1) == Issue(v, op, Once(q), o, 1);
    assert Issue(v, op, Once(q), o, 1) == Attempts(w1, op, Once(q), o, 2);
    var found := Exchange(w1, q);
    SelectOnlyReads(w.db, q, FreshId(w), FreshId(w));
    assert found.answer == Got(Reads(w.db, q, FreshId(w)));
  }

  // -- a placeholder whose mac is on an earlier card -------------------------------------------------

  lemma MacOnServer(db: Db, server: Id, mac: Option<string>, id: Id)
    requires exists e :: e in db.endpoints && e.serverId == server && e.mac == mac
    ensures Reads(db, SelectEndpointByMac(server, mac), id).EndpointRef?
  {
    assert First(db.endpoints, WithMac(server, mac)).Some?;
  }

  /** The first card is a placeholder and its mac is on the server already. */
  ghost predicate MacTaken(db: Db, server: Id, card: Card) {
    card.placeholder && exists e :: e in db.endpoints && e.serverId == server && e.mac == card.mac
  }

  lemma MacsLater(db: Db, db': Db, server: Id, cards: seq<Card>, row: Endpoint)
    requires cards != [] && !MacsAhead(db, server, cards) && !MacTaken(db, server, cards[0])
    requires db'.endpoints == db.endpoints + [row] && row.serverId == server && row.mac == cards[0].mac
    ensures !MacsAhead(db', server, cards[1..])
  {
    var rest := cards[1..];
    var i :| 0 <= i < |cards| && cards[i].placeholder
      && !((forall e :: e in db.endpoints && e.serverId == server ==> e.mac != cards[i].mac)
           && (forall j :: 0 <= j < i ==> cards[j].mac != cards[i].mac));
    assert i > 0 && rest[i - 1] == cards[i];
    if e :| e in db.endpoints && e.serverId == server && e.mac == cards[i].mac {
      assert e in db'.endpoints;
    } else {
      var j :| 0 <= j < i && cards[j].mac == cards[i].mac;
      if j == 0 { assert row in db'.endpoints; } else { assert rest[j - 1] == cards[j]; }
    }
  }

  /** The first card's insert is lost, and the re-select by mac hands back the earlier card. */
  lemma MacLost(w: World, server: Id, card: Card, name: string)
    requires Smooth(w) && Tries(w) >= 2 && MacTaken(w.db, server, card)
    ensures
      var t := Call(w.(tape := [NotSent]), CardOp(server, card, name), CardSelector(server, card, name), RECORDS_ENDPOINT);
      && t.answer.Got? && t.answer.reply.EndpointRef? && SmoothOn(w, t.w) && t.w.db == w.db && t.w.minted == w.minted
      && t.answer.reply == Reads(w.db, SelectEndpointByMac(server, card.mac), FreshId(w))
  {
    MacOnServer(w.db, server, card.mac, FreshId(w));
    hide Call, Reads;
    Mistaken(w, CardOp(server, card, name), SelectEndpointByMac(server, card.mac), RECORDS_ENDPOINT);
  }

  /** One endpoint fewer, and nothing reported. */
  lemma MacMistaken(w: World, dc: string, server: Id, cards: seq<Card>, taken: seq<string>, used: set<Option<string>>)
    requires Smooth(w) && CardsBorn(w) && Tries(w) >= 2 && cards != [] && MacTaken(w.db, server, cards[0])
    requires CardsCovered(PrefixesOf(w.db, dc), cards)
    ensures
      var s := PersistCards(w.(tape := [NotSent]), dc, server, cards, taken, used);
      Smoothly(w, s) && |Live(s.w.db, server)| == |Live(w.db, server)| + |cards| - 1
  {
    hide Call, Reads, PersistAddrs, CardName, PrefixesOf, CardsBorn, CardsCovered, AddrsCovered, CardSelector, CardOp, MacTaken, Live;
    var name := CardName(cards[0], taken);
    CoveredRest(PrefixesOf(w.db, dc), cards);
    MacLost(w, server, cards[0], name);
    var t := Call(w.(tape := [NotSent]), CardOp(server, cards[0], name), CardSelector(server, cards[0], name), RECORDS_ENDPOINT);
    var found := t.answer.reply.endpoint;
    SamePrefixes(t.w.db, w.db, dc);
    var rows := AddrsReplied(t.w, dc, found, cards[0].addresses, used, []);
    var s := PersistAddrs(t.w, dc, found, cards[0].addresses, used);
    SamePrefixes(s.w.db, w.db, dc);
    FoundBorn(w, SelectEndpointByMac(server, cards[0].mac), found);
    MoreRowsBorn(w, s.w, found, rows);
    SameLength(w.db, s.w.db, server);
    SmoothTrans(w, t.w, s.w);
    var more := CardsReplied(s.w, dc, server, cards[1..], Taking(cards[0], taken), s.value);
    assert CardOp(server, cards[0], name) == InsertEndpoint(server, name, cards[0].mac, cards[0].name) by { CardOpIs(server, cards[0], name); }
  }

  lemma CardOpIs(server: Id, card: Card, name: string)
    ensures CardOp(server, card, name) == InsertEndpoint(server, name, card.mac, card.name)
  {
  }

  lemma FoundBorn(w: World, q: Op, found: Id)
    requires CardsBorn(w) && q.SelectEndpointByMac? && Reads(w.db, q, FreshId(w)).EndpointRef? && found == Reads(w.db, q, FreshId(w)).endpoint
    ensures Born(found, w.session, w.minted)
  {
  }

  lemma MoreRowsBorn(w: World, w': World, card: Id, rows: seq<Ip>)
    requires CardsBorn(w) && Born(card, w.session, w.minted) && RowsOn(w.db, w'.db, card, rows)
    requires w'.session == w.session && w.minted <= w'.minted
    ensures CardsBorn(w')
  {
  }

  lemma SameLength(a: Db, b: Db, server: Id)
    requires a.endpoints == b.endpoints
    ensures |Live(a, server)| == |Live(b, server)|
  {
  }

  lemma {:induction false} MacTwice(w: World, dc: string, server: Id, cards: seq<Card>, taken: seq<string>, used: set<Option<string>>) returns (fates: seq<Fault>)
    requires Smooth(w) && CardsBorn(w) && Tries(w) >= 2 && !MacsAhead(w.db, server, cards)
    requires CardsCovered(PrefixesOf(w.db, dc), cards)
    ensures
      var s := PersistCards(w.(tape := fates), dc, server, cards, taken, used);
      Smoothly(w, s) && |Live(s.w.db, server)| == |Live(w.db, server)| + |cards| - 1
    decreases |cards|
  {
    hide PersistCards, Live, CardName, PrefixesOf, Taking, CardHead, CardsBorn;
    if MacTaken(w.db, server, cards[0]) {
      MacMistaken(w, dc, server, cards, taken, used);
      fates := [NotSent];
    } else {
      CoveredRest(PrefixesOf(w.db, dc), cards);
      var rows := HeadReplied(w, dc, server, cards, taken, used, []);
      var s := CardHead(w, dc, server, cards[0], taken, used);
      SamePrefixes(s.w.db, w.db, dc);
      MacsLater(w.db, s.w.db, server, cards, NewCard(server, cards[0], CardName(cards[0], taken), FreshId(w)));
      var later := MacTwice(s.w, dc, server, cards[1..], Taking(cards[0], taken), s.value);
      rows := HeadReplied(w, dc, server, cards, taken, used, later);
      fates := Reps(Asked(w, s.w)) + later;
    }
  }

  // -- an address that is on its card twice ----------------------------------------------------------

  function PrefixKey(prefixes: seq<Prefix>, addr: string): Option<Id> {
    match First(prefixes, Covering(addr))
    case Some(p) => Some(p.id)
    case None => None
  }

  predicate OnCard(db: Db, prefixes: seq<Prefix>, card: Id, addr: string) {
    First(db.ips, SameIp(addr, card, PrefixKey(prefixes, addr))).Some?
  }

  /** Each of these addresses is new on the card. */
  ghost predicate AddrsNew(db: Db, prefixes: seq<Prefix>, card: Id, addrs: seq<string>) {
    forall i :: 0 <= i < |addrs| ==> !OnCard(db, prefixes, card, addrs[i]) && forall j :: 0 <= j < i ==> addrs[j] != addrs[i]
  }

  lemma AddrsLater(db: Db, db': Db, prefixes: seq<Prefix>, card: Id, addrs: seq<string>, row: Ip)
    requires addrs != [] && !AddrsNew(db, prefixes, card, addrs) && !OnCard(db, prefixes, card, addrs[0])
    requires db'.ips == db.ips + [row] && SameIp(addrs[0], card, PrefixKey(prefixes, addrs[0]))(row)
    ensures !AddrsNew(db', prefixes, card, addrs[1..])
  {
    var rest := addrs[1..];
    var i :| 0 <= i < |addrs| && !(!OnCard(db, prefixes, card, addrs[i]) && forall j :: 0 <= j < i ==> addrs[j] != addrs[i]);
    assert i > 0 && rest[i - 1] == addrs[i];
    if OnCard(db, prefixes, card, addrs[i]) {
      var x := First(db.ips, SameIp(addrs[i], card, PrefixKey(prefixes, addrs[i]))).value;
      assert x in db'.ips;
    } else {
      var j :| 0 <= j < i && addrs[j] == addrs[i];
      if j == 0 { assert row in db'.ips; } else { assert rest[j - 1] == addrs[j]; }
    }
  }

  lemma IpIsFound(db: Db, prefixes: seq<Prefix>, card: Id, addr: string, id: Id)
    requires OnCard(db, prefixes, card, addr)
    ensures Reads(db, SelectIp(addr, card, PrefixKey(prefixes, addr)), id).IpRef?
  {
  }

  /** The insert of this address is lost, and the re-select hands back the row that is there. */
  function AddrLost(w: World, dc: string, card: Id, addr: string, p: Prefix, used: set<Option<string>>): Turn {
    Call(NetPrefix(w, addr, dc, Some(RECORDED)).w.(tape := [NotSent]), AddrOp(card, addr, p, used), Once(SelectIp(addr, card, Some(p.id))), RECORDS_IP)
  }

  lemma AddrFound(w: World, dc: string, card: Id, addrs: seq<string>, p: Prefix, used: set<Option<string>>)
    requires Smooth(w) && Tries(w) >= 2 && addrs != [] && First(PrefixesOf(w.db, dc), Covering(addrs[0])) == Some(p)
    requires OnCard(w.db, PrefixesOf(w.db, dc), card, addrs[0])
    ensures
      var t := AddrLost(w, dc, card, addrs[0], p, used);
      && SmoothOn(w, t.w) && t.w.db == w.db
      && PersistAddrs(After(w, 1, [NotSent]), dc, card, addrs, used)
         == PersistAddrs(t.w, dc, card, addrs[1..], used + {AddrOp(card, addrs[0], p, used).kind})
  {
    hide OnCard, First;
    NetPrefixPads(w, addrs[0], dc, Some(RECORDED), [NotSent]);
    var look := NetPrefix(w, addrs[0], dc, Some(RECORDED));
    var op, q := AddrOp(card, addrs[0], p, used), SelectIp(addrs[0], card, Some(p.id));
    IpIsFound(w.db, PrefixesOf(w.db, dc), card, addrs[0], FreshId(look.w));
    hide Call, Reads, NetPrefix, First, OnCard;
    Mistaken(look.w, op, q, RECORDS_IP);
    SmoothTrans(w, look.w, AddrLost(w, dc, card, addrs[0], p, used).w);
  }

  lemma AddrMistaken(w: World, dc: string, card: Id, addrs: seq<string>, used: set<Option<string>>) returns (rows: seq<Ip>)
    requires Smooth(w) && Tries(w) >= 2 && AddrsCovered(PrefixesOf(w.db, dc), addrs)
    requires addrs != [] && OnCard(w.db, PrefixesOf(w.db, dc), card, addrs[0])
    ensures
      var s := PersistAddrs(After(w, 1, [NotSent]), dc, card, addrs, used);
      s.Fine? && SmoothOn(w, s.w) && RowsOn(w.db, s.w.db, card, rows) && |rows| < |addrs|
  {
    assert addrs[0] in addrs && forall a :: a in addrs[1..] ==> a in addrs;
    var p := First(PrefixesOf(w.db, dc), Covering(addrs[0])).value;
    hide AddrLost, PersistAddrs, First, OnCard;
    AddrFound(w, dc, card, addrs, p, used);
    var t := AddrLost(w, dc, card, addrs[0], p, used);
    var used' := used + {AddrOp(card, addrs[0], p, used).kind};
    SamePrefixes(t.w.db, w.db, dc);
    hide PrefixesOf, RowsOn;
    rows := AddrsReplied(t.w, dc, card, addrs[1..], used', []);
    SmoothTrans(w, t.w, PersistAddrs(t.w, dc, card, addrs[1..], used').w);
  }

  lemma {:induction false} AddrTwice(w: World, dc: string, card: Id, addrs: seq<string>, used: set<Option<string>>)
    returns (fates: seq<Fault>, rows: seq<Ip>)
    requires Smooth(w) && Tries(w) >= 2 && AddrsCovered(PrefixesOf(w.db, dc), addrs)
    requires !AddrsNew(w.db, PrefixesOf(w.db, dc), card, addrs)
    ensures
      var s := PersistAddrs(w.(tape := fates), dc, card, addrs, used);
      s.Fine? && SmoothOn(w, s.w) && RowsOn(w.db, s.w.db, card, rows) && |rows| < |addrs|
    decreases |addrs|
  {
    hide PersistAddrs, First, AddrHead, RowsOn, PrefixesOf;
    if OnCard(w.db, PrefixesOf(w.db, dc), card, addrs[0]) {
      rows := AddrMistaken(w, dc, card, addrs, used);
      fates := Reps(1) + [NotSent];
    } else {
      assert addrs[0] in addrs && forall a :: a in addrs[1..] ==> a in addrs;
      var p := First(PrefixesOf(w.db, dc), Covering(addrs[0])).value;
      var used' := used + {AddrOp(card, addrs[0], p, used).kind};
      var w1, row := AddrHead(w, dc, card, addrs[0], p, used), AddrRowOf(w, card, addrs[0], p, used);
      AddrReplied(w, dc, card, addrs, p, used, []);
      SamePrefixes(w1.db, w.db, dc);
      RowIsSame(w, card, addrs[0], p, used, PrefixesOf(w.db, dc));
      AddrsLater(w.db, w1.db, PrefixesOf(w.db, dc), card, addrs, row);
      fates, rows := AddrTwice(w1, dc, card, addrs[1..], used');
      var s := PersistAddrs(w1.(tape := fates), dc, card, addrs[1..], used');
      AddrReplied(w, dc, card, addrs, p, used, fates);
      SmoothTrans(w, w1, s.w);
      RowsFirst(w.db, w1.db, s.w.db, card, row, rows);
      fates, rows := Reps(2) + fates, [row] + rows;
    }
  }

  lemma RowIsSame(w: World, card: Id, addr: string, p: Prefix, used: set<Option<string>>, prefixes: seq<Prefix>)
    requires First(prefixes, Covering(addr)) == Some(p)
    ensures SameIp(addr, card, PrefixKey(prefixes, addr))(AddrRowOf(w, card, addr, p, used))
  {
  }

  /** Some card has fewer addresses than it was planned with. */
  ghost predicate Short(more: seq<CardRow>, cards: seq<Card>) {
    |more| == |cards| && exists i :: 0 <= i < |cards| && |more[i].addrs| < |cards[i].addresses|
  }

  lemma ShortFirst(row: CardRow, more: seq<CardRow>, cards: seq<Card>)
    requires cards != [] && |more| == |cards[1..]|
    requires |row.addrs| < |cards[0].addresses| || Short(more, cards[1..])
    ensures Short([row] + more, cards)
  {
    var all := [row] + more;
    if |row.addrs| < |cards[0].addresses| {
      assert all[0] == row;
    } else {
      var i :| 0 <= i < |cards[1..]| && |more[i].addrs| < |cards[1..][i].addresses|;
      assert all[i + 1] == more[i] && cards[i + 1] == cards[1..][i];
    }
  }

  /** The first card names an address twice. */
  lemma CardShort(w: World, dc: string, server: Id, cards: seq<Card>, taken: seq<string>, used: set<Option<string>>)
    returns (fates: seq<Fault>, more: seq<CardRow>)
    requires Smooth(w) && CardsBorn(w) && Tries(w) >= 2 && CardsCovered(PrefixesOf(w.db, dc), cards)
    requires cards != [] && !Distinct(cards[0].addresses)
    ensures
      var s := PersistCards(w.(tape := fates), dc, server, cards, taken, used);
      Smoothly(w, s) && Live(s.w.db, server) == Live(w.db, server) + more && Short(more, cards)
  {
    hide PersistAddrs, PersistCards, CardName, PrefixesOf, Taking, RowHead, RowsOn, Live, CardsBorn, NewCard;
    CoveredRest(PrefixesOf(w.db, dc), cards);
    var card, id := cards[0], FreshId(w);
    var w1 := RowHead(w, server, card, CardName(card, taken));
    CardReplied(w, dc, server, cards, taken, used, []);
    SamePrefixes(w1.db, w.db, dc);
    NotNew(w1.db, PrefixesOf(w1.db, dc), id, card.addresses);
    var later, rows := AddrTwice(w1, dc, id, card.addresses, used);
    CardReplied(w, dc, server, cards, taken, used, later);
    var s := PersistAddrs(w1.(tape := later), dc, id, card.addresses, used);
    HeadIsDone(w, w1, s, server, card, taken, rows);
    HeadMeans(w, s, server, card, taken, rows);
    SamePrefixes(s.w.db, w.db, dc);
    hide HeadDone, CardsCovered, AddrsCovered, SmoothOn;
    more := CardsReplied(s.w, dc, server, cards[1..], Taking(card, taken), s.value);
    SmoothTrans(w, s.w, PersistCards(s.w, dc, server, cards[1..], Taking(card, taken), s.value).w);
    SeqAssoc(Live(w.db, server), HeadRow(card, taken, rows), more);
    ShortFirst(HeadRow(card, taken, rows), more, cards);
    fates, more := Reps(1) + later, [HeadRow(card, taken, rows)] + more;
  }

  lemma NotNew(db: Db, prefixes: seq<Prefix>, card: Id, addrs: seq<string>)
    requires !Distinct(addrs)
    ensures !AddrsNew(db, prefixes, card, addrs)
  {
    var i, j :| 0 <= i < j < |addrs| && addrs[i] == addrs[j];
    hide OnCard;
  }

  lemma {:induction false} AddrTwiceOn(w: World, dc: string, server: Id, cards: seq<Card>, taken: seq<string>, used: set<Option<string>>)
    returns (fates: seq<Fault>, more: seq<CardRow>)
    requires Smooth(w) && CardsBorn(w) && Tries(w) >= 2 && CardsCovered(PrefixesOf(w.db, dc), cards) && !DistinctWithin(cards)
    ensures
      var s := PersistCards(w.(tape := fates), dc, server, cards, taken, used);
      Smoothly(w, s) && Live(s.w.db, server) == Live(w.db, server) + more && Short(more, cards)
    decreases |cards|
  {
    hide PersistCards, Live, CardName, PrefixesOf, Taking, CardHead, CardsBorn, HeadDone, HeadRow, SmoothOn, CardsCovered, AddrsCovered, Short;
    if !Distinct(cards[0].addresses) {
      fates, more := CardShort(w, dc, server, cards, taken, used);
    } else {
      CoveredRest(PrefixesOf(w.db, dc), cards);
      var rows := HeadReplied(w, dc, server, cards, taken, used, []);
      var s := CardHead(w, dc, server, cards[0], taken, used);
      HeadMeans(w, s, server, cards[0], taken, rows);
      SamePrefixes(s.w.db, w.db, dc);
      LaterTwice(cards);
      fates, more := AddrTwiceOn(s.w, dc, server, cards[1..], Taking(cards[0], taken), s.value);
      rows := HeadReplied(w, dc, server, cards, taken, used, fates);
      HeadMeans(w, s, server, cards[0], taken, rows);
      SeqAssoc(Live(w.db, server), HeadRow(cards[0], taken, rows), more);
      ShortLength(more, cards[1..]);
      ShortFirst(HeadRow(cards[0], taken, rows), more, cards);
      SmoothTrans(w, s.w, PersistCards(s.w.(tape := fates), dc, server, cards[1..], Taking(cards[0], taken), s.value).w);
      fates, more := Reps(Asked(w, s.w)) + fates, [HeadRow(cards[0], taken, rows)] + more;
    }
  }

  lemma ShortLength(more: seq<CardRow>, cards: seq<Card>)
    requires Short(more, cards)
    ensures |more| == |cards|
  {
  }

  lemma LaterTwice(cards: seq<Card>)
    requires !DistinctWithin(cards) && Distinct(cards[0].addresses)
    ensures cards != [] && !DistinctWithin(cards[1..])
  {
    var c :| c in cards && !Distinct(c.addresses);
    assert c in cards[1..];
  }

  // -- a clean finish has every address covered ---------------------------------------------------------

  lemma {:induction false} CleanAddrs(w: World, dc: string, card: Id, addrs: seq<string>, used: set<Option<string>>)
    requires Quiet(w) && Unreported(w, PersistAddrs(w, dc, card, addrs, used))
    ensures AddrsCovered(PrefixesOf(w.db, dc), addrs)
    decreases |addrs|
  {
    if addrs != [] {
      PrefixExact(w, addrs[0], dc);
      PrefixLookup(w, addrs[0], dc);
      hide NetPrefix, Call, First, PrefixesOf;
      var prefix := NetPrefix(w, addrs[0], dc, Some(RECORDED));
      if prefix.value.None? {
        AddrsErrors(Recorded(prefix.w, "network_prefix"), dc, card, addrs[1..], used);
      } else {
        var p := prefix.value.value;
        var op, sel := AddrOp(card, addrs[0], p, used), Once(SelectIp(addrs[0], card, Some(p.id)));
        IpKeyDetected(prefix.w.db, op);
        hide Detects;
        CallReports(prefix.w, op, sel, RECORDS_IP);
        InsertCall(prefix.w, op, sel, RECORDS_IP);
        hide InsertResult;
        var t := Call(prefix.w, op, sel, RECORDS_IP);
        AddrsErrors(t.w, dc, card, addrs[1..], used + {op.kind});
        SamePrefixes(t.w.db, w.db, dc);
        CleanAddrs(t.w, dc, card, addrs[1..], used + {op.kind});
        CoveredFirst(PrefixesOf(w.db, dc), addrs);
      }
    }
  }

  lemma CoveredFirst(prefixes: seq<Prefix>, addrs: seq<string>)
    requires addrs != [] && First(prefixes, Covering(addrs[0])).Some? && AddrsCovered(prefixes, addrs[1..])
    ensures AddrsCovered(prefixes, addrs)
  {
    hide First;
    forall a | a in addrs ensures First(prefixes, Covering(a)).Some? { if a != addrs[0] { assert a in addrs[1..]; } }
  }

  /** A card that was not reported answers with an endpoint. */
  lemma CardAnswered(w: World, server: Id, card: Card, name: string)
    requires Quiet(w)
    ensures
      var t := Call(w, CardOp(server, card, name), CardSelector(server, card, name), RECORDS_ENDPOINT);
      Quiet(t.w) && w.errors <= t.w.errors && (t.answer.Got? && t.w.errors == w.errors ==> t.answer.reply.EndpointRef?)
  {
    var op, sel := CardOp(server, card, name), CardSelector(server, card, name);
    CardKeyDetected(w.db, server, card, name);
    InsertCall(w, op, sel, RECORDS_ENDPOINT);
    CallReports(w, op, sel, RECORDS_ENDPOINT);
    hide Call, Detects, Commit;
  }

  /** The addresses of one card, whatever the faults, cost no report only if they finish quietly. */
  lemma {:induction false} AddrsQuiet(w: World, dc: string, card: Id, addrs: seq<string>, used: set<Option<string>>)
    requires Quiet(w)
    ensures Quiet(PersistAddrs(w, dc, card, addrs, used).w)
    decreases |addrs|
  {
  }

  lemma {:induction false} CleanCards(w: World, dc: string, server: Id, cards: seq<Card>, taken: seq<string>, used: set<Option<string>>)
    requires Quiet(w) && Unreported(w, PersistCards(w, dc, server, cards, taken, used))
    ensures CardsCovered(PrefixesOf(w.db, dc), cards)
    decreases |cards|
  {
    if cards != [] {
      hide PersistAddrs, Call, CardName, PrefixesOf, CardSelector, AddrsCovered;
      var card, name := cards[0], CardName(cards[0], taken);
      CardAnswered(w, server, card, name);
      var t := Call(w, CardOp(server, card, name), CardSelector(server, card, name), RECORDS_ENDPOINT);
      if t.answer.reply.EndpointRef? {
        var s := PersistAddrs(t.w, dc, t.answer.reply.endpoint, card.addresses, used);
        AddrsErrors(t.w, dc, t.answer.reply.endpoint, card.addresses, used);
        AddrsQuiet(t.w, dc, t.answer.reply.endpoint, card.addresses, used);
        CardsErrors(s.w, dc, server, cards[1..], Taking(card, taken), s.value);
        CleanAddrs(t.w, dc, t.answer.reply.endpoint, card.addresses, used);
        CleanCards(s.w, dc, server, cards[1..], Taking(card, taken), s.value);
        SamePrefixes(t.w.db, w.db, dc);
        SamePrefixes(s.w.db, w.db, dc);
        forall c | c in cards ensures AddrsCovered(PrefixesOf(w.db, dc), c.addresses) { if c != card { assert c in cards[1..]; } }
      } else {
        CardsErrors(t.w, dc, server, cards[1..], Taking(card, taken), used);
      }
    }
  }

  // -- the exact condition ----------------------------------------------------------------------------

  /** If the cards of this message finish unreported under this tape, what is on the server is the plan. */
  ghost predicate AsPlanned(w: World, ctx: Context, server: Id, m: CreateMsg) {
    var s := Persist(w, ctx, server, Cards(m));
    Unreported(w, s) ==> Live(s.w.db, server) == Planned(w.db, ctx, m)
  }

  lemma {:induction false} PlanSizes(prefixes: seq<Prefix>, cards: seq<Card>, taken: seq<string>, used: set<Option<string>>)
    requires CardsCovered(prefixes, cards)
    ensures
      var plan := PlanCards(prefixes, cards, taken, used);
      |plan| == |cards| && forall i :: 0 <= i < |cards| ==> |plan[i].addrs| == |cards[i].addresses|
    decreases |cards|
  {
    if cards != [] {
      hide CardName, PlanAddrs, PlanUsed;
      CoveredRest(prefixes, cards);
      PlanAddrsSize(prefixes, cards[0].addresses, used);
      PlanSizes(prefixes, cards[1..], Taking(cards[0], taken), PlanUsed(prefixes, cards[0].addresses, used));
    }
  }

  lemma {:induction false} PlanAddrsSize(prefixes: seq<Prefix>, addrs: seq<string>, used: set<Option<string>>)
    requires AddrsCovered(prefixes, addrs)
    ensures |PlanAddrs(prefixes, addrs, used)| == |addrs|
    decreases |addrs|
  {
    if addrs != [] {
      assert addrs[0] in addrs && forall a :: a in addrs[1..] ==> a in addrs;
      var p := First(prefixes, Covering(addrs[0])).value;
      PlanAddrsSize(prefixes, addrs[1..], used + {Some(ResolveIpType(p.kind, used))});
    }
  }

  /** Two rows that answer to one key, and all addresses covered: some clean finish is not the plan. */
  lemma MistakenTape(w: World, ctx: Context, server: Id, m: CreateMsg) returns (fates: seq<Fault>)
    requires Smooth(w) && CardsBorn(w) && NoCards(w.db, server) && Tries(w) >= 2
    requires CardsCovered(PrefixesOf(w.db, ctx.dcName), Cards(m)) && !DistinctCards(Cards(m))
    ensures Smoothly(w, Persist(w.(tape := fates), ctx, server, Cards(m))) && !AsPlanned(w.(tape := fates), ctx, server, m)
  {
    hide Cards, PersistCards, PlanCards, BondTaken, Live, PrefixesOf, CardsBorn, CardsCovered;
    var cards, taken := Cards(m), BondTaken(Cards(m));
    NothingLive(w.db, server);
    PlanSizes(PrefixesOf(w.db, ctx.dcName), cards, taken, {});
    if DistinctWithin(cards) {
      hide DistinctWithin;
      MacsClash(w.db, server, cards);
      fates := MacTwice(w, ctx.dcName, server, cards, taken, {});
    } else {
      hide DistinctWithin;
      var more;
      fates, more := AddrTwiceOn(w, ctx.dcName, server, cards, taken, {});
      assert [] + more == more;
    }
  }

  lemma MacsClash(db: Db, server: Id, cards: seq<Card>)
    requires !DistinctCards(cards) && DistinctWithin(cards)
    ensures !MacsAhead(db, server, cards)
  {
    hide DistinctWithin;
  }

  /**
   Exactly when every finish of the cards that reports nothing leaves the planned rows, whatever
   the faults: when there is one attempt, or no placeholder's mac is on a card before it and
   no card names an address twice, or an address no prefix covers keeps any finish from being
   clean.
   */
  lemma CleanExactly(w: World, ctx: Context, server: Id, m: CreateMsg)
    requires JustInserted(w, server)
    ensures
      (forall tape: seq<Fault> :: AsPlanned(w.(tape := tape), ctx, server, m)) <==>
        Unmistakable(w, Cards(m)) || !CardsCovered(PrefixesOf(w.db, ctx.dcName), Cards(m))
  {
    hide AsPlanned, Cards, CardsCovered, DistinctCards, JustInserted, PrefixesOf;
    var covered := CardsCovered(PrefixesOf(w.db, ctx.dcName), Cards(m));
    if Unmistakable(w, Cards(m)) || !covered {
      forall tape: seq<Fault> ensures AsPlanned(w.(tape := tape), ctx, server, m) {
        Retaped(w, tape, server);
        if covered { PlannedAlways(w.(tape := tape), ctx, server, m); } else { NeverClean(w.(tape := tape), ctx, server, m); }
      }
    } else {
      InsertedBorn(w, server);
      var tape := MistakenTape(w.(tape := []), ctx, server, m);
      assert w.(tape := []).(tape := tape) == w.(tape := tape);
    }
  }

  lemma InsertedBorn(w: World, server: Id)
    requires JustInserted(w, server)
    ensures Smooth(w.(tape := [])) && CardsBorn(w.(tape := [])) && NoCards(w.db, server)
  {
  }

  lemma PlannedAlways(w: World, ctx: Context, server: Id, m: CreateMsg)
    requires JustInserted(w, server) && Unmistakable(w, Cards(m))
    ensures AsPlanned(w, ctx, server, m)
  {
    hide Persist, Cards, Live, Planned, Unmistakable, Sound;
    CardsClean(w, ctx, server, m);
  }

  lemma NeverClean(w: World, ctx: Context, server: Id, m: CreateMsg)
    requires JustInserted(w, server) && !CardsCovered(PrefixesOf(w.db, ctx.dcName), Cards(m))
    ensures AsPlanned(w, ctx, server, m)
  {
    hide PersistCards, Cards, CardsCovered, PrefixesOf, BondTaken, Live, Planned;
    if Unreported(w, Persist(w, ctx, server, Cards(m))) {
      CleanCards(w, ctx.dcName, server, Cards(m), BondTaken(Cards(m)), {});
    }
  }
}
