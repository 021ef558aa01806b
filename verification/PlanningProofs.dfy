/** What the planned cards guarantee: no address lost or moved, and names that never collide. */
module PlanningProofs {
  import opened Basics
  import opened BondNames
  import opened Planning

  // -- which networks each card was made of ----------------------------------------------

  /** A card together with the networks merged into it. */
  datatype Part = Part(card: Card, parts: seq<Card>)

  ghost function AllAddresses(cards: seq<Card>): seq<string> {
    if cards == [] then [] else AllAddresses(cards[..|cards| - 1]) + cards[|cards| - 1].addresses
  }

  ghost function Members(table: seq<Part>): seq<Card> {
    if table == [] then [] else Members(table[..|table| - 1]) + table[|table| - 1].parts
  }

  ghost function Results(table: seq<Part>): (r: seq<Card>)
    ensures |r| == |table| && forall i :: 0 <= i < |r| ==> r[i] == table[i].card
  {
    seq(|table|, i requires 0 <= i < |table| => table[i].card)
  }

  ghost function NetCards(nets: seq<Network>): (r: seq<Card>)
    ensures |r| == |nets| && forall i :: 0 <= i < |r| ==> r[i] == CardOf(nets[i])
  {
    seq(|nets|, i requires 0 <= i < |nets| => CardOf(nets[i]))
  }

  /** The first known mac of these networks, if any is known. */
  ghost predicate FirstKnown(mac: Option<string>, parts: seq<Card>) {
    if Truthy(mac)
    then exists i :: 0 <= i < |parts| && parts[i].mac == mac && forall j :: 0 <= j < i ==> !Truthy(parts[j].mac)
    else forall j :: 0 <= j < |parts| ==> !Truthy(parts[j].mac)
  }

  /**
   A card carries exactly its networks' addresses, the name of the first of them, the first mac
   any of them knows, and the order they name; and no network whose known mac differs from its own.
   */
  ghost predicate Built(p: Part) {
    && p.parts != [] && !p.card.fromPort
    && p.card.addresses == AllAddresses(p.parts)
    && p.card.name == p.parts[0].name && FirstKnown(p.card.mac, p.parts)
    && (forall q :: q in p.parts ==> !Clash(q.mac, p.card.mac))
    && (forall q :: q in p.parts && q.order.Some? ==> q.order == p.card.order)
  }

  ghost predicate AllBuilt(table: seq<Part>) { forall p :: p in table ==> Built(p) }

  lemma AddressesOne(cards: seq<Card>, card: Card)
    ensures AllAddresses(cards + [card]) == AllAddresses(cards) + card.addresses
  {
    assert (cards + [card])[..|cards|] == cards;
  }

  lemma {:induction false} AddressesConcat(a: seq<Card>, b: seq<Card>)
    ensures AllAddresses(a + b) == AllAddresses(a) + AllAddresses(b)
  {
    if b == [] {
      assert a + b == a;
    } else {
      hide AllAddresses;
      var front, last := b[..|b| - 1], b[|b| - 1];
      assert b == front + [last] && a + b == (a + front) + [last];
      AddressesOne(a + front, last);
      AddressesOne(front, last);
      AddressesConcat(a, front);
    }
  }

  lemma MembersOne(table: seq<Part>, p: Part)
    ensures Members(table + [p]) == Members(table) + p.parts
  {
    assert (table + [p])[..|table|] == table;
  }

  lemma {:induction false} MembersConcat(a: seq<Part>, b: seq<Part>)
    ensures Members(a + b) == Members(a) + Members(b)
  {
    if b == [] {
      assert a + b == a;
    } else {
      var front, last := b[..|b| - 1], b[|b| - 1];
      assert b == front + [last] && a + b == (a + front) + [last];
      MembersOne(a + front, last);
      MembersOne(front, last);
      MembersConcat(a, front);
      hide Members;
      assert Members(a) + (Members(front) + last.parts) == Members(a) + Members(front) + last.parts;
    }
  }

  /** Growing one row of the table adds exactly the new network. */
  lemma MembersUpdate(table: seq<Part>, k: nat, card: Card, more: Card)
    requires k < |table|
    ensures
      multiset(Members(table[k := Part(card, table[k].parts + [more])])) == multiset(Members(table)) + multiset{more}
  {
    var p := Part(card, table[k].parts + [more]);
    var a, b := table[..k], table[k + 1..];
    assert table == a + [table[k]] + b && table[k := p] == a + [p] + b;
    MembersConcat(a + [table[k]], b);
    MembersConcat(a + [p], b);
    MembersOne(a, table[k]);
    MembersOne(a, p);
  }

  // -- grouping ---------------------------------------------------------------------------

  datatype Traces = Traces(byOrder: seq<Part>, unordered: seq<Part>, placeholders: seq<Part>)

  ghost predicate TracesBuilt(t: Traces) {
    AllBuilt(t.byOrder) && AllBuilt(t.placeholders) && AllBuilt(t.unordered)
  }

  ghost function Traced(t: Traces): multiset<Card> {
    multiset(Members(t.byOrder)) + multiset(Members(t.placeholders)) + multiset(Members(t.unordered))
  }

  ghost predicate Follows(t: Traces, g: Groups) {
    && Results(t.byOrder) == g.byOrder && Results(t.unordered) == g.unordered
    && Results(t.placeholders) == g.placeholders
  }

  /** Another card holds this one's order, under another known mac. */
  ghost predicate Displaced(card: Card, holders: seq<Card>) {
    exists h :: h in holders && h.order == card.order && Truthy(h.mac) && h.mac != card.mac
  }

  ghost predicate WellPlaced(g: Groups) {
    && (forall i, j :: 0 <= i < j < |g.byOrder| ==> g.byOrder[i].order != g.byOrder[j].order)
    && (forall c :: c in g.byOrder ==> c.order.Some? && !c.placeholder && !c.fromPort)
    && (forall c :: c in g.placeholders ==> c.order.Some? && c.placeholder && Truthy(c.mac) && !c.fromPort && Displaced(c, g.byOrder))
    && (forall c :: c in g.unordered ==> c.order.None? && !c.placeholder && !c.fromPort)
  }

  lemma SingleBuilt(card: Card, net: Card)
    requires card.addresses == net.addresses && card.mac == net.mac && !card.fromPort
    requires card.name == net.name && card.order == net.order
    ensures Built(Part(card, [net]))
  {
    AddressesOne([], net);
  }

  ghost function MergeParts(p: Part, card: Card): Part { Part(MergeCards(p.card, card), p.parts + [card]) }

  lemma MergeBuilt(p: Part, card: Card)
    requires Built(p) && !Clash(p.card.mac, card.mac) && card.order == p.card.order
    ensures Built(MergeParts(p, card))
  {
    AddressesOne(p.parts, card);
    hide AllAddresses;
    MergeFirst(p, card);
  }

  lemma MergeFirst(p: Part, card: Card)
    requires FirstKnown(p.card.mac, p.parts)
    ensures FirstKnown(MergeCards(p.card, card).mac, p.parts + [card])
  {
    var parts := p.parts + [card];
    if Truthy(p.card.mac) {
      var i :| 0 <= i < |p.parts| && p.parts[i].mac == p.card.mac && forall j :: 0 <= j < i ==> !Truthy(p.parts[j].mac);
      assert parts[i].mac == p.card.mac;
    } else if Truthy(card.mac) {
      assert parts[|p.parts|].mac == card.mac;
    }
  }

  lemma {:induction false} CardIsPlain(card: Card, entries: seq<AddressEntry>)
    ensures ReadEntries(card, entries).placeholder == card.placeholder
    ensures ReadEntries(card, entries).fromPort == card.fromPort
  {
    if entries != [] { CardIsPlain(card, entries[..|entries| - 1]); }
  }

  /** Placing one network's card extends the trace by exactly that card. */
  ghost function Trace(t: Traces, g: Groups, card: Card): Traces
    requires Follows(t, g)
  {
    if card.order.None? then t.(unordered := t.unordered + [Part(card, [card])])
    else
      var k := Holder(g.byOrder, card.order);
      if k == |g.byOrder| then t.(byOrder := t.byOrder + [Part(card, [card])])
      else if Clash(g.byOrder[k].mac, card.mac) then
        t.(placeholders := t.placeholders + [Part(card.(placeholder := true), [card])])
      else t.(byOrder := t.byOrder[k := MergeParts(t.byOrder[k], card)])
  }

  lemma TraceFollows(t: Traces, g: Groups, card: Card)
    requires Follows(t, g) && WellPlaced(g) && !card.placeholder && !card.fromPort
    ensures Follows(Trace(t, g, card), Place(g, card)) && WellPlaced(Place(g, card))
  {
    hide Members, AllAddresses;
    StayDisplaced(g, card);
  }

  lemma StayDisplaced(g: Groups, card: Card)
    requires WellPlaced(g) && !card.placeholder
    ensures forall c :: c in Place(g, card).placeholders ==> Displaced(c, Place(g, card).byOrder)
  {
    var g' := Place(g, card);
    forall c | c in g'.placeholders ensures Displaced(c, g'.byOrder) {
      if c in g.placeholders {
        var h :| h in g.byOrder && h.order == c.order && Truthy(h.mac) && h.mac != c.mac;
        var i :| 0 <= i < |g.byOrder| && g.byOrder[i] == h;
        assert g'.byOrder[i] in g'.byOrder;
      } else {
        assert g.byOrder[Holder(g.byOrder, card.order)] in g'.byOrder;
      }
    }
  }

  lemma TraceBuilt(t: Traces, g: Groups, card: Card)
    requires Follows(t, g) && TracesBuilt(t) && !card.fromPort
    ensures TracesBuilt(Trace(t, g, card))
  {
    SingleBuilt(card, card);
    SingleBuilt(card.(placeholder := true), card);
    var k := Holder(g.byOrder, card.order);
    if card.order.Some? && k < |g.byOrder| && !Clash(g.byOrder[k].mac, card.mac) {
      assert t.byOrder[k] in t.byOrder;
      MergeBuilt(t.byOrder[k], card);
    }
    hide Built;
  }

  lemma TraceCounts(t: Traces, g: Groups, card: Card)
    requires Follows(t, g)
    ensures Traced(Trace(t, g, card)) == Traced(t) + multiset{card}
  {
    hide Members;
    var k := Holder(g.byOrder, card.order);
    if card.order.None? {
      MembersOne(t.unordered, Part(card, [card]));
    } else if k == |g.byOrder| {
      MembersOne(t.byOrder, Part(card, [card]));
    } else if Clash(g.byOrder[k].mac, card.mac) {
      MembersOne(t.placeholders, Part(card.(placeholder := true), [card]));
    } else {
      MembersUpdate(t.byOrder, k, MergeCards(g.byOrder[k], card), card);
    }
  }

  lemma {:induction false} GroupTraced(nets: seq<Network>) returns (t: Traces)
    ensures Follows(t, Group(nets)) && WellPlaced(Group(nets)) && TracesBuilt(t)
    ensures Traced(t) == multiset(NetCards(nets))
  {
    if nets == [] {
      t := Traces([], [], []);
    } else {
      var last, g := nets[|nets| - 1], Group(nets[..|nets| - 1]);
      var before := GroupTraced(nets[..|nets| - 1]);
      CardIsPlain(Card(None, [], Some(last.name), None, false, false), last.entries);
      TraceFollows(before, g, CardOf(last));
      TraceBuilt(before, g, CardOf(last));
      TraceCounts(before, g, CardOf(last));
      t := Trace(before, g, CardOf(last));
      assert NetCards(nets) == NetCards(nets[..|nets| - 1]) + [CardOf(last)];
    }
  }

  // -- sorting and numbering ------------------------------------------------------------------

  /** Bond-numbered cards come in strictly rising order. */
  ghost predicate Rising(cards: seq<Card>) {
    forall i, j :: 0 <= i < j < |cards| && !cards[i].placeholder && !cards[j].placeholder
      ==> OrderOf(cards[i]) < OrderOf(cards[j])
  }

  lemma {:induction false} InsertKeeps(card: Card, sorted: seq<Card>)
    ensures multiset(InsertCard(card, sorted)) == multiset(sorted) + multiset{card}
  {
    if sorted != [] {
      InsertKeeps(card, sorted[1..]);
      assert sorted == [sorted[0]] + sorted[1..];
    }
  }

  ghost predicate Above(cards: seq<Card>, low: int) {
    forall c :: c in cards ==> !c.placeholder && low < OrderOf(c)
  }

  lemma RisingCons(card: Card, rest: seq<Card>)
    requires Rising(rest) && Above(rest, OrderOf(card))
    ensures Rising([card] + rest)
  {
  }

  lemma {:induction false} InsertSorts(card: Card, sorted: seq<Card>)
    requires Rising(sorted) && !card.placeholder && forall c :: c in sorted ==> !c.placeholder && OrderOf(c) != OrderOf(card)
    ensures Rising(InsertCard(card, sorted))
  {
    if sorted == [] {
    } else if OrderOf(card) < OrderOf(sorted[0]) {
      assert Above(sorted, OrderOf(card)) by {
        forall c | c in sorted ensures !c.placeholder && OrderOf(card) < OrderOf(c) {
          var i :| 0 <= i < |sorted| && sorted[i] == c;
          assert sorted[0] in sorted;
        }
      }
      RisingCons(card, sorted);
    } else {
      assert sorted[0] in sorted;
      InsertSorts(card, sorted[1..]);
      InsertKeeps(card, sorted[1..]);
      var r := InsertCard(card, sorted[1..]);
      forall c | c in r ensures !c.placeholder && OrderOf(sorted[0]) < OrderOf(c) {
        assert c in multiset(r);
        if c != card {
          assert c in sorted[1..];
          var i :| 0 <= i < |sorted[1..]| && sorted[1..][i] == c;
          assert sorted[i + 1] == c && c in sorted;
        }
      }
      RisingCons(sorted[0], r);
    }
  }

  lemma {:induction false} SortSorts(cards: seq<Card>)
    requires forall i, j :: 0 <= i < j < |cards| ==> cards[i].order != cards[j].order
    requires forall c :: c in cards ==> c.order.Some? && !c.placeholder
    ensures multiset(SortCards(cards)) == multiset(cards) && Rising(SortCards(cards))
  {
    if cards != [] {
      var front, last := cards[..|cards| - 1], cards[|cards| - 1];
      SortSorts(front);
      assert cards == front + [last];
      forall c | c in SortCards(front) ensures !c.placeholder && OrderOf(c) != OrderOf(last) {
        assert c in multiset(SortCards(front)) && c in front && last in cards;
      }
      InsertSorts(last, SortCards(front));
      InsertKeeps(last, SortCards(front));
    }
  }

  lemma {:induction false} NumberedCards(cards: seq<Card>, counter: int)
    ensures
      var r := NumberCards(cards, counter);
      forall i :: 0 <= i < |r| ==> r[i] == cards[i].(order := Some(counter + 1 + i))
  {
    if cards != [] {
      NumberedCards(cards[1..], counter + 1);
      forall i | 0 <= i < |cards|
        ensures NumberCards(cards, counter)[i] == cards[i].(order := Some(counter + 1 + i))
      {
        if i > 0 {
          assert NumberCards(cards, counter)[i] == NumberCards(cards[1..], counter + 1)[i - 1];
        }
      }
    }
  }

  /** What the numbering keeps: every order known and at most `counter`, bonds rising, placeholders with a mac. */
  ghost predicate Numbered(cards: seq<Card>, counter: int) {
    && Rising(cards)
    && forall c :: c in cards ==> c.order.Some? && OrderOf(c) <= counter && (c.placeholder ==> Truthy(c.mac))
  }

  /** Each card is made of whole networks, each network is in exactly one card. */
  ghost predicate Partition(table: seq<Part>, cards: seq<Card>, nets: seq<Network>) {
    && AllBuilt(table)
    && multiset(Results(table)) == multiset(cards)
    && multiset(Members(table)) == multiset(NetCards(nets))
  }

  ghost function Renumbered(table: seq<Part>, cards: seq<Card>): (r: seq<Part>)
    requires |table| == |cards|
    ensures |r| == |table| && forall i :: 0 <= i < |r| ==> r[i] == Part(cards[i], table[i].parts)
  {
    seq(|table|, i requires 0 <= i < |table| => Part(cards[i], table[i].parts))
  }

  lemma {:induction false} SameMembers(a: seq<Part>, b: seq<Part>)
    requires |a| == |b| && forall i :: 0 <= i < |a| ==> a[i].parts == b[i].parts
    ensures Members(a) == Members(b)
  {
    if a != [] { SameMembers(a[..|a| - 1], b[..|b| - 1]); }
  }

  lemma {:induction false} RenumberedBuilt(table: seq<Part>, cards: seq<Card>)
    requires |table| == |cards| && AllBuilt(table)
    requires forall i :: 0 <= i < |cards| ==> table[i].card.order.None? && exists n: int :: cards[i] == table[i].card.(order := Some(n))
    ensures AllBuilt(Renumbered(table, cards)) && Members(Renumbered(table, cards)) == Members(table)
    ensures Results(Renumbered(table, cards)) == cards
  {
    SameMembers(table, Renumbered(table, cards));
    forall p | p in Renumbered(table, cards) ensures Built(p) {
      var i :| 0 <= i < |table| && Renumbered(table, cards)[i] == p;
      assert table[i] in table;
    }
  }

  lemma JoinTables(a: seq<Part>, b: seq<Part>, c: seq<Part>)
    requires AllBuilt(a) && AllBuilt(b) && AllBuilt(c)
    ensures AllBuilt(a + b + c) && Results(a + b + c) == Results(a) + Results(b) + Results(c)
    ensures multiset(Members(a + b + c)) == multiset(Members(a)) + multiset(Members(b)) + multiset(Members(c))
  {
    MembersConcat(a + b, c);
    MembersConcat(a, b);
    hide Built, Members;
  }

  /** The grouping and numbering neither lose, move nor repeat a network. */
  lemma CardsPartitionNetworks(nets: seq<Network>) returns (table: seq<Part>)
    ensures Partition(table, AddressCards(nets), nets)
  {
    var g := Group(nets);
    var t := GroupTraced(nets);
    SortSorts(g.byOrder);
    var top := TopOrder(SortCards(g.byOrder) + g.placeholders);
    var numbered := NumberCards(g.unordered, top);
    NumberedCards(g.unordered, top);
    hide SortCards, TopOrder, NumberCards, Group, Built, Members, NetCards;
    RenumberedBuilt(t.unordered, numbered);
    var tail := Renumbered(t.unordered, numbered);
    JoinTables(t.byOrder, t.placeholders, tail);
    table := t.byOrder + t.placeholders + tail;
    assert multiset(Results(table)) == multiset(g.byOrder) + multiset(g.placeholders) + multiset(numbered);
  }

  ghost predicate KnownUpTo(cards: seq<Card>, top: int) {
    forall c :: c in cards ==> c.order.Some? && OrderOf(c) <= top && (c.placeholder ==> Truthy(c.mac)) && !c.fromPort
  }

  lemma {:induction false} BaseKnown(g: Groups)
    requires WellPlaced(g)
    ensures
      var base := SortCards(g.byOrder) + g.placeholders;
      KnownUpTo(base, TopOrder(base)) && Rising(SortCards(g.byOrder))
  {
    SortSorts(g.byOrder);
    var sorted := SortCards(g.byOrder);
    var base := sorted + g.placeholders;
    forall c | c in base ensures c in g.byOrder || c in g.placeholders {
      if c in sorted { assert c in multiset(sorted); }
    }
  }

  lemma {:induction false} NumberedKnown(cards: seq<Card>, top: int)
    requires forall c :: c in cards ==> !c.placeholder && !c.fromPort
    ensures
      var r := NumberCards(cards, top);
      KnownUpTo(r, top + |cards|) && forall i :: 0 <= i < |r| ==> OrderOf(r[i]) == top + 1 + i
  {
    NumberedCards(cards, top);
  }

  lemma {:induction false} KnownTogether(a: seq<Card>, b: seq<Card>, top: int, more: nat)
    requires KnownUpTo(a, top) && KnownUpTo(b, top + more) && Rising(a + b)
    ensures Numbered(a + b, top + more) && forall c :: c in a + b ==> !c.fromPort
  {
    hide Rising, OrderOf, Truthy;
    assert forall c :: c in a ==> OrderOf(c) <= top;
    assert forall c :: c in a + b ==> c in a || c in b;
  }

  lemma {:induction false} AddressCardsNumbered(nets: seq<Network>)
    ensures Numbered(AddressCards(nets), AddressDeck(nets).counter)
    ensures forall c :: c in AddressCards(nets) ==> !c.fromPort
  {
    var g := Group(nets);
    var _ := GroupTraced(nets);
    BaseKnown(g);
    var base := SortCards(g.byOrder) + g.placeholders;
    var top := TopOrder(base);
    NumberedKnown(g.unordered, top);
    var numbered := NumberCards(g.unordered, top);
    assert forall c :: c in SortCards(g.byOrder) ==> c in base;
    hide SortCards, TopOrder, NumberCards, Group, AddressesOf, Truthy, OrderOf, Numbered, Rising;
    RisingConcat(SortCards(g.byOrder), g.placeholders, numbered, top);
    KnownTogether(base, numbered, top, |g.unordered|);
  }

  lemma RisingConcat(sorted: seq<Card>, placeholders: seq<Card>, numbered: seq<Card>, top: int)
    requires Rising(sorted) && forall c :: c in placeholders ==> c.placeholder
    requires forall c :: c in sorted ==> OrderOf(c) <= top
    requires forall i :: 0 <= i < |numbered| ==> OrderOf(numbered[i]) == top + 1 + i
    ensures Rising(sorted + placeholders + numbered)
  {
    var all := sorted + placeholders + numbered;
    var m, n := |sorted|, |sorted| + |placeholders|;
    assert forall i :: 0 <= i < |all| ==>
      all[i] == if i < m then sorted[i] else if i < n then placeholders[i - m] else numbered[i - n];
    forall i, j | 0 <= i < j < |all| && !all[i].placeholder && !all[j].placeholder
      ensures OrderOf(all[i]) < OrderOf(all[j])
    {
      if j < n {
        assert j < m;
      } else if i < n {
        assert i < m && sorted[i] in sorted;
      }
    }
  }

  // -- address conservation ---------------------------------------------------------------------

  /** The addresses of the message marked `fixed`, in order. */
  ghost function FixedEntries(entries: seq<AddressEntry>): seq<string> {
    if entries == [] then []
    else
      var e := entries[|entries| - 1];
      FixedEntries(entries[..|entries| - 1]) + if e.fixed then [e.addr] else []
  }

  ghost function FixedAddresses(nets: seq<Network>): seq<string> {
    if nets == [] then []
    else FixedAddresses(nets[..|nets| - 1]) + FixedEntries(nets[|nets| - 1].entries)
  }

  lemma {:induction false} CardReadsFixed(card: Card, entries: seq<AddressEntry>)
    ensures ReadEntries(card, entries).addresses == card.addresses + FixedEntries(entries)
  {
    if entries != [] { CardReadsFixed(card, entries[..|entries| - 1]); }
  }

  lemma {:induction false} NetCardsFixed(nets: seq<Network>)
    ensures AllAddresses(NetCards(nets)) == FixedAddresses(nets)
  {
    if nets != [] {
      var front, last := nets[..|nets| - 1], nets[|nets| - 1];
      NetCardsFixed(front);
      assert NetCards(nets) == NetCards(front) + [CardOf(last)];
      AddressesOne(NetCards(front), CardOf(last));
      CardReadsFixed(Card(None, [], Some(last.name), None, false, false), last.entries);
    }
  }

  lemma PickOut<T>(front: seq<T>, last: T, x: seq<T>, y: seq<T>)
    requires multiset(front + [last]) == multiset(x + [last] + y)
    ensures multiset(front) == multiset(x + y)
  {
    assert multiset(front) == multiset(front + [last]) - multiset{last};
    assert multiset(x + y) == multiset(x + [last] + y) - multiset{last};
  }

  lemma {:induction false} PermutedAddresses(a: seq<Card>, b: seq<Card>)
    requires multiset(a) == multiset(b)
    ensures multiset(AllAddresses(a)) == multiset(AllAddresses(b))
  {
    if a == [] {
      assert |multiset(b)| == 0;
    } else {
      var front, last := a[..|a| - 1], a[|a| - 1];
      assert a == front + [last] && last in multiset(b);
      var k :| 0 <= k < |b| && b[k] == last;
      var x, y := b[..k], b[k + 1..];
      assert b == x + [last] + y;
      PickOut(front, last, x, y);
      hide AllAddresses;
      PermutedAddresses(front, x + y);
      AddressesOne(front, last);
      AddressesConcat(x + [last], y);
      AddressesOne(x, last);
      AddressesConcat(x, y);
    }
  }

  lemma {:induction false} BuiltAddresses(table: seq<Part>)
    requires AllBuilt(table)
    ensures AllAddresses(Results(table)) == AllAddresses(Members(table))
  {
    if table != [] {
      var front, last := table[..|table| - 1], table[|table| - 1];
      assert last in table && forall p :: p in front ==> p in table;
      BuiltAddresses(front);
      assert Results(table) == Results(front) + [last.card];
      AddressesOne(Results(front), last.card);
      AddressesConcat(Members(front), last.parts);
    }
  }

  /** The addresses on address-sourced cards are, as a multiset, the message's fixed entries. */
  lemma AddressConservation(nets: seq<Network>)
    ensures multiset(AllAddresses(AddressCards(nets))) == multiset(FixedAddresses(nets))
  {
    var table := CardsPartitionNetworks(nets);
    hide AddressCards;
    PermutedAddresses(AddressCards(nets), Results(table));
    BuiltAddresses(table);
    PermutedAddresses(Members(table), NetCards(nets));
    NetCardsFixed(nets);
  }

  // -- ports ---------------------------------------------------------------------------------------

  ghost predicate Share(a: Card, b: Card) { exists ip :: ip in a.addresses && ip in b.addresses }

  /** A port's card shares no address with any other card. */
  ghost predicate PortsApart(cards: seq<Card>) {
    forall i, j :: 0 <= i < |cards| && 0 <= j < |cards| && i != j && cards[i].fromPort ==> !Share(cards[i], cards[j])
  }

  ghost predicate DeckOk(d: Deck) {
    d.taken == AddressesOf(d.cards) && Numbered(d.cards, d.counter) && PortsApart(d.cards)
  }

  lemma {:induction false} AddPortApart(cards: seq<Card>, card: Card, taken: set<string>)
    requires PortsApart(cards) && taken == AddressesOf(cards) && forall ip :: ip in card.addresses ==> ip !in taken
    ensures PortsApart(cards + [card]) && AddressesOf(cards + [card]) == taken + ToSet(card.addresses)
  {
    forall c | c in cards ensures !Share(c, card) && !Share(card, c) {
      assert forall ip :: ip in c.addresses ==> ip in AddressesOf(cards);
    }
    forall i, j | 0 <= i < |cards + [card]| && 0 <= j < |cards + [card]| && i != j && (cards + [card])[i].fromPort
      ensures !Share((cards + [card])[i], (cards + [card])[j])
    {
      if i < |cards| { assert cards[i] in cards; }
      if j < |cards| { assert cards[j] in cards; }
    }
    hide Share;
  }

  lemma {:induction false} AddPortNumbered(cards: seq<Card>, card: Card, counter: int)
    requires Numbered(cards, counter) && card.order == Some(counter + 1) && !card.placeholder
    ensures Numbered(cards + [card], counter + 1)
  {
    var all := cards + [card];
    forall i, j | 0 <= i < j < |all| && !all[i].placeholder && !all[j].placeholder
      ensures OrderOf(all[i]) < OrderOf(all[j])
    {
      assert cards[i] in cards;
    }
  }

  lemma {:induction false} PortAdded(d: Deck, port: Port)
    requires DeckOk(d)
    ensures DeckOk(AddPort(d, port)) && d.cards <= AddPort(d, port).cards
    ensures forall i :: |d.cards| <= i < |AddPort(d, port).cards| ==> AddPort(d, port).cards[i].fromPort
    ensures d.taken <= AddPort(d, port).taken && forall ip :: ip in port.ips ==> ip in AddPort(d, port).taken
  {
    hide AddressesOf, PortsApart, Numbered;
    var unseen := Filter(port.ips, NotIn(d.taken));
    if unseen != [] {
      var card := Card(Some(d.counter + 1), unseen, None, port.mac, true, false);
      AddPortApart(d.cards, card, d.taken);
      AddPortNumbered(d.cards, card, d.counter);
    }
    forall ip | ip in port.ips ensures ip in AddPort(d, port).taken {
      if ip !in d.taken { assert ip in unseen; }
    }
  }

  lemma {:induction false} PortsAdded(d: Deck, ports: seq<Port>)
    requires DeckOk(d)
    ensures DeckOk(AddPorts(d, ports))
    ensures d.cards <= AddPorts(d, ports).cards
    ensures forall i :: |d.cards| <= i < |AddPorts(d, ports).cards| ==> AddPorts(d, ports).cards[i].fromPort
    ensures forall p, ip :: p in ports && ip in p.ips ==> ip in AddPorts(d, ports).taken
  {
    hide DeckOk, AddPort;
    if ports != [] {
      var front, last := ports[..|ports| - 1], ports[|ports| - 1];
      PortsAdded(d, front);
      var d0 := AddPorts(d, front);
      PortAdded(d0, last);
      assert forall p :: p in ports ==> p in front || p == last;
    }
  }

  lemma NoPortsApart(cards: seq<Card>)
    requires forall c :: c in cards ==> !c.fromPort
    ensures PortsApart(cards)
  {
  }

  /**
   The whole plan: the address-sourced cards come first and carry exactly the
   fixed addresses; every port address is on some card; a port-sourced card
   shares no address with any other; bond orders rise and placeholders have a mac.
   */
  lemma HostNetworksPlan(nets: seq<Network>, ports: seq<Port>)
    ensures
      var cards := HostNetworks(nets, ports);
      && AddressCards(nets) <= cards
      && (forall i :: 0 <= i < |cards| ==> (cards[i].fromPort <==> i >= |AddressCards(nets)|))
      && (forall p, ip :: p in ports && ip in p.ips ==> ip in AddressesOf(cards))
      && PortsApart(cards)
      && (exists counter :: Numbered(cards, counter))
  {
    AddressCardsNumbered(nets);
    NoPortsApart(AddressCards(nets));
    var d := AddressDeck(nets);
    PortsAdded(d, ports);
    hide AddressCards, AddPorts, AddressesOf, PortsApart, Numbered;
    forall i | 0 <= i < |HostNetworks(nets, ports)|
      ensures HostNetworks(nets, ports)[i].fromPort <==> i >= |AddressCards(nets)|
    {
      if i < |AddressCards(nets)| { assert AddressCards(nets)[i] in AddressCards(nets); }
    }
  }

  // -- endpoint names --------------------------------------------------------------------------------

  ghost predicate AllIn(a: seq<string>, b: seq<string>) { forall x :: x in a ==> x in b }

  lemma BondInjective(i: int, j: int)
    requires Bond(i) == Bond(j)
    ensures i == j
  {
    assert Bond(i)[4..] == Str(i) && Bond(j)[4..] == Str(j);
    StrInjective(i, j);
  }

  ghost predicate NamesFit(cards: seq<Card>, taken: seq<string>, names: seq<string>) {
    && |names| == |cards| && Distinct(names)
    && forall i :: 0 <= i < |cards| ==>
      if cards[i].placeholder then names[i] !in taken else names[i] == Bond(OrderOf(cards[i]) - 1)
  }

  /** The first card's name differs from every later one. */
  lemma HeadNameDiffers(cards: seq<Card>, taken: seq<string>, taken': seq<string>, head: string, tail: seq<string>, i: nat)
    requires cards != [] && Rising(cards) && AllIn(BondTaken(cards), taken) && NamesFit(cards[1..], taken', tail) && i < |tail|
    requires if cards[0].placeholder then head !in taken && taken' == taken + [head]
             else head == Bond(OrderOf(cards[0]) - 1) && taken' == taken
    ensures tail[i] != head
  {
    hide Distinct, Str, Bond;
    var c := cards[i + 1];
    assert cards[1..][i] == c && c in cards[1..];
    assert !c.placeholder ==> Bond(OrderOf(c) - 1) in BondTaken(cards);
    assert cards[0] in cards && (!cards[0].placeholder ==> Bond(OrderOf(cards[0]) - 1) in BondTaken(cards));
    if !c.placeholder && !cards[0].placeholder {
      assert OrderOf(cards[0]) < OrderOf(cards[i + 1]);
      if tail[i] == head {
        BondInjective(OrderOf(c) - 1, OrderOf(cards[0]) - 1);
      }
    }
  }

  lemma NamesJoin(cards: seq<Card>, taken: seq<string>, taken': seq<string>, head: string, tail: seq<string>)
    requires cards != [] && Rising(cards) && AllIn(BondTaken(cards), taken) && NamesFit(cards[1..], taken', tail)
    requires if cards[0].placeholder then head !in taken && taken' == taken + [head]
             else head == Bond(OrderOf(cards[0]) - 1) && taken' == taken
    ensures NamesFit(cards, taken, [head] + tail)
  {
    hide Str, Bond, Rising, BondTaken, OrderOf;
    forall i | 0 <= i < |tail| ensures tail[i] != head {
      HeadNameDiffers(cards, taken, taken', head, tail, i);
    }
    assert forall i :: 0 < i < |cards| ==> cards[1..][i - 1] == cards[i];
  }

  lemma {:induction false} NamesAvoid(cards: seq<Card>, taken: seq<string>)
    requires Rising(cards) && AllIn(BondTaken(cards), taken)
    ensures NamesFit(cards, taken, EndpointNames(cards, taken))
  {
    if cards != [] {
      var names, rest := EndpointNames(cards, taken), cards[1..];
      var taken' := if cards[0].placeholder then taken + [names[0]] else taken;
      NextBondIsLeastFree(taken);
      assert Rising(rest) && AllIn(BondTaken(rest), taken');
      NamesAvoid(rest, taken');
      hide Str, Bond, NextBond, Rising, BondTaken, NamesFit, OrderOf;
      NamesJoin(cards, taken, taken', names[0], EndpointNames(rest, taken'));
    }
  }

  /** No two cards of one create message, placeholders included, are given the same endpoint name. */
  lemma EndpointNamesDistinct(nets: seq<Network>, ports: seq<Port>)
    ensures
      var cards := HostNetworks(nets, ports);
      Distinct(EndpointNames(cards, BondTaken(cards)))
  {
    HostNetworksPlan(nets, ports);
    NamesAvoid(HostNetworks(nets, ports), BondTaken(HostNetworks(nets, ports)));
  }
}
