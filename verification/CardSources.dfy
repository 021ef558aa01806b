/** Where every card of a create message comes from: its order, its mac, and the addresses of one port or network. */
module CardSources {
  import opened Basics
  import opened BondNames
  import opened Planning
  import opened PlanningProofs

  // -- what one network says -----------------------------------------------------------------

  /** The last fixed entry that has the field decides it, null included; without one it stays unknown. */
  ghost predicate LastSays<T>(entries: seq<AddressEntry>, field: AddressEntry -> Field<T>, value: Option<T>) {
    || (exists k :: && 0 <= k < |entries| && entries[k].fixed && field(entries[k]) == Present(value)
                    && forall j :: k < j < |entries| && entries[j].fixed ==> field(entries[j]).Missing?)
    || (value.None? && forall j :: 0 <= j < |entries| && entries[j].fixed ==> field(entries[j]).Missing?)
  }

  function MacField(): AddressEntry -> Field<string> { (e: AddressEntry) => e.mac }
  function OrderField(): AddressEntry -> Field<int> { (e: AddressEntry) => e.order }

  lemma LastSaysOn<T>(front: seq<AddressEntry>, e: AddressEntry, field: AddressEntry -> Field<T>, value: Option<T>)
    requires LastSays(front, field, value)
    ensures LastSays(front + [e], field, if e.fixed && field(e).Present? then field(e).value else value)
  {
    var entries := front + [e];
    if e.fixed && field(e).Present? {
      assert field(entries[|front|]) == Present(field(e).value);
    } else if k :| 0 <= k < |front| && front[k].fixed && field(front[k]) == Present(value)
                   && forall j :: k < j < |front| && front[j].fixed ==> field(front[j]).Missing? {
      assert field(entries[k]) == Present(value);
    }
  }

  lemma {:induction false} EntriesRead(name: string, entries: seq<AddressEntry>)
    ensures
      var card := ReadEntries(Card(None, [], Some(name), None, false, false), entries);
      && card.name == Some(name) && card.addresses == FixedEntries(entries)
      && LastSays(entries, MacField(), card.mac) && LastSays(entries, OrderField(), card.order)
  {
    hide LastSays;
    var blank := Card(None, [], Some(name), None, false, false);
    if entries == [] {
      NothingSaid<string>(MacField());
      NothingSaid<int>(OrderField());
    } else {
      var front, last := entries[..|entries| - 1], entries[|entries| - 1];
      EntriesRead(name, front);
      assert entries == front + [last];
      LastSaysOn(front, last, MacField(), ReadEntries(blank, front).mac);
      LastSaysOn(front, last, OrderField(), ReadEntries(blank, front).order);
    }
  }

  lemma NothingSaid<T>(field: AddressEntry -> Field<T>)
    ensures LastSays([], field, None)
  {
  }

  /** A network's card has its name, its fixed addresses in order, and the last mac and order they give. */
  lemma NetworkRead(net: Network)
    ensures
      var card := CardOf(net);
      && card.name == Some(net.name) && card.addresses == FixedEntries(net.entries)
      && LastSays(net.entries, MacField(), card.mac) && LastSays(net.entries, OrderField(), card.order)
  {
    hide LastSays;
    EntriesRead(net.name, net.entries);
  }

  // -- the orders -------------------------------------------------------------------------------

  function NoOrder(): Card -> bool { (c: Card) => c.order.None? }

  lemma PlacedUnordered(g: Groups, card: Card)
    ensures Place(g, card).unordered == g.unordered + if card.order.None? then [card] else []
  {
  }

  lemma {:induction false} UnorderedAre(nets: seq<Network>)
    ensures Group(nets).unordered == Filter(NetCards(nets), NoOrder())
  {
    if nets != [] {
      var front, last := nets[..|nets| - 1], nets[|nets| - 1];
      UnorderedAre(front);
      assert NetCards(nets) == NetCards(front) + [CardOf(last)];
      hide CardOf, NetCards, Place;
      PlacedUnordered(Group(front), CardOf(last));
      FilterSnoc(NetCards(front), CardOf(last), NoOrder());
    }
  }

  /** The greatest order of these cards, or nought when there is none. */
  ghost predicate Highest(cards: seq<Card>, top: int) {
    if cards == [] then top == 0
    else (exists c :: c in cards && c.order == Some(top)) && forall c :: c in cards ==> c.order.Some? && c.order.value <= top
  }

  /** The cards of the networks without an order, in the message's order, numbered on from `top`. */
  ghost predicate NumberedOn(tail: seq<Card>, unordered: seq<Card>, top: int) {
    |tail| == |unordered| && forall i :: 0 <= i < |tail| ==> tail[i] == unordered[i].(order := Some(top + 1 + i))
  }

  /** The mac of every placeholder differs from the one its order is held under. */
  ghost predicate HoldersKnown(base: seq<Card>) {
    forall c :: c in base && c.placeholder ==> exists h :: h in base && !h.placeholder && h.order == c.order && Truthy(h.mac) && h.mac != c.mac
  }

  function BaseOf(g: Groups): seq<Card> { SortCards(g.byOrder) + g.placeholders }

  lemma BaseOrders(g: Groups)
    requires WellPlaced(g)
    ensures Highest(BaseOf(g), TopOrder(BaseOf(g))) && HoldersKnown(BaseOf(g))
  {
    hide Rising, TopOrder, Highest;
    SortSorts(g.byOrder);
    var base := BaseOf(g);
    forall c | c in base ensures c.order.Some? { if c in SortCards(g.byOrder) { assert c in multiset(SortCards(g.byOrder)); } }
    hide SortCards;
    TopIsHighest(base);
    forall c | c in base && c.placeholder ensures exists h :: h in base && !h.placeholder && h.order == c.order && Truthy(h.mac) && h.mac != c.mac {
      HolderStays(g, c, base);
    }
  }

  lemma AddressCardsAre(nets: seq<Network>)
    ensures
      var base := BaseOf(Group(nets));
      && AddressCards(nets) == base + NumberCards(Group(nets).unordered, TopOrder(base))
      && AddressDeck(nets).counter == TopOrder(base) + |Group(nets).unordered|
  {
    hide Group, SortCards, NumberCards, TopOrder, AddressesOf;
  }

  /** The cards set aside for another mac on their order: each one network's, in the message's order. */
  ghost predicate SetAside(held: seq<Card>, nets: seq<Network>, from: seq<nat>) {
    && |from| == |held| && (forall j :: 0 <= j < |from| ==> from[j] < |nets| && held[j] == CardOf(nets[from[j]]).(placeholder := true))
    && (forall i, j :: 0 <= i < j < |from| ==> from[i] < from[j])
  }

  lemma {:induction false} PlaceholdersAre(nets: seq<Network>) returns (from: seq<nat>)
    ensures SetAside(Group(nets).placeholders, nets, from)
  {
    hide CardOf, Clash, MergeCards, Holder;
    if nets == [] {
      from := [];
    } else {
      var front, last := nets[..|nets| - 1], nets[|nets| - 1];
      from := PlaceholdersAre(front);
      var g := Group(front);
      if |Group(nets).placeholders| > |g.placeholders| { from := from + [|nets| - 1]; }
    }
  }

  /**
   Networks with an order come first and keep it, in rising order; those set aside follow, and then
   the others in the message's order, numbered on from the highest order, or from bond0.
   */
  lemma OrdersGoOn(nets: seq<Network>) returns (ordered: seq<Card>, held: seq<Card>, tail: seq<Card>, top: int, from: seq<nat>)
    ensures AddressCards(nets) == ordered + held + tail && Highest(ordered + held, top) && HoldersKnown(ordered + held)
    ensures Rising(ordered) && (forall c :: c in ordered ==> !c.placeholder) && SetAside(held, nets, from)
    ensures NumberedOn(tail, Filter(NetCards(nets), NoOrder()), top)
    ensures AddressDeck(nets).counter == top + |tail|
  {
    hide Group, NetCards, Filter, Traced, TracesBuilt, Follows, WellPlaced, TopOrder, Highest, HoldersKnown, NumberCards, AddressCards, AddressDeck, SortCards, SetAside, Rising;
    var g := Group(nets);
    var _ := GroupTraced(nets);
    UnorderedAre(nets);
    BaseOrders(g);
    OrderedAre(g);
    AddressCardsAre(nets);
    from := PlaceholdersAre(nets);
    ordered, held, top := SortCards(g.byOrder), g.placeholders, TopOrder(BaseOf(g));
    tail := NumberCards(g.unordered, top);
    NumberedCards(g.unordered, top);
  }

  lemma OrderedAre(g: Groups)
    requires WellPlaced(g)
    ensures Rising(SortCards(g.byOrder)) && forall c :: c in SortCards(g.byOrder) ==> !c.placeholder
  {
    hide Rising;
    SortSorts(g.byOrder);
    forall c | c in SortCards(g.byOrder) ensures !c.placeholder { assert c in multiset(SortCards(g.byOrder)); }
  }

  lemma TopIsHighest(cards: seq<Card>)
    requires forall c :: c in cards ==> c.order.Some?
    ensures Highest(cards, TopOrder(cards))
  {
    if cards != [] {
      var top := TopOrder(cards);
      assert exists c :: c in cards && OrderOf(c) == top;
      var c :| c in cards && OrderOf(c) == top;
      assert c.order == Some(top);
    }
  }

  lemma HolderStays(g: Groups, c: Card, base: seq<Card>)
    requires WellPlaced(g) && multiset(SortCards(g.byOrder)) == multiset(g.byOrder) && base == SortCards(g.byOrder) + g.placeholders
    requires c in base && c.placeholder
    ensures exists h :: h in base && !h.placeholder && h.order == c.order && Truthy(h.mac) && h.mac != c.mac
  {
    hide SortCards;
    forall x | x in SortCards(g.byOrder) ensures !x.placeholder { assert x in multiset(g.byOrder); }
    assert Displaced(c, g.byOrder);
    var h :| h in g.byOrder && h.order == c.order && Truthy(h.mac) && h.mac != c.mac;
    assert h in multiset(SortCards(g.byOrder));
  }

  // -- the ports ----------------------------------------------------------------------------------

  /** The addresses of this port that are on none of these cards, in their order. */
  ghost function Fresh(port: Port, cards: seq<Card>): seq<string> { Filter(port.ips, NotIn(AddressesOf(cards))) }

  /** Card number `j` is made of one port: its mac, its addresses not yet on a card, and the next order. */
  ghost predicate OfPort(cards: seq<Card>, j: nat, port: Port, order: int)
    requires j < |cards|
  {
    && Fresh(port, cards[..j]) != []
    && cards[j] == Card(Some(order), Fresh(port, cards[..j]), None, port.mac, true, false)
  }

  /** When the turn of port number `i` came, all its addresses were on cards already. */
  ghost predicate Covered(cards: seq<Card>, start: nat, port: Port, i: nat, from: seq<nat>)
    requires |cards| == start + |from|
  {
    exists m :: 0 <= m <= |from| && Turns(from, i, m) && Fresh(port, cards[..start + m]) == []
  }

  /** The first `m` cards made of ports are those of ports before number `i`. */
  ghost predicate Turns(from: seq<nat>, i: nat, m: nat) { forall j :: 0 <= j < |from| ==> (from[j] < i <==> j < m) }

  /** The cards from `start` on are those of the ports numbered `from`, in order; every other port had no address left. */
  ghost predicate PortsOf(cards: seq<Card>, start: nat, ports: seq<Port>, from: seq<nat>, counter: int) {
    && |cards| == start + |from|
    && (forall j :: 0 <= j < |from| ==> from[j] < |ports| && OfPort(cards, start + j, ports[from[j]], counter + 1 + j))
    && (forall i, j :: 0 <= i < j < |from| ==> from[i] < from[j])
    && (forall i :: 0 <= i < |ports| && i !in from ==> Covered(cards, start, ports[i], i, from))
  }

  lemma {:induction false} PortsFrom(d: Deck, ports: seq<Port>) returns (from: seq<nat>)
    requires d.taken == AddressesOf(d.cards)
    ensures
      var d' := AddPorts(d, ports);
      && d.cards <= d'.cards && d'.taken == AddressesOf(d'.cards) && d'.counter == d.counter + |from|
      && PortsOf(d'.cards, |d.cards|, ports, from, d.counter)
  {
    hide OfPort;
    hide AddressesOf, Filter;
    if ports == [] {
      from := [];
    } else {
      var front, last := ports[..|ports| - 1], ports[|ports| - 1];
      from := PortsFrom(d, front);
      var d0 := AddPorts(d, front);
      var unseen := Filter(last.ips, NotIn(d0.taken));
      assert unseen == Fresh(last, d0.cards);
      if unseen == [] {
        PortSkipped(d0.cards, |d.cards|, ports, from, d.counter);
      } else {
        var card := Card(Some(d0.counter + 1), unseen, None, last.mac, true, false);
        TakenGrows(d0.cards, card);
        PortPlaced(d0.cards, |d.cards|, ports, from, d.counter, card);
        from := from + [|ports| - 1];
      }
    }
  }

  lemma TakenGrows(cards: seq<Card>, card: Card)
    ensures AddressesOf(cards + [card]) == AddressesOf(cards) + ToSet(card.addresses)
  {
    assert card in cards + [card] && forall c :: c in cards ==> c in cards + [card];
  }

  lemma PortSkipped(cards: seq<Card>, start: nat, ports: seq<Port>, from: seq<nat>, counter: int)
    requires ports != [] && PortsOf(cards, start, ports[..|ports| - 1], from, counter) && Fresh(ports[|ports| - 1], cards) == []
    ensures PortsOf(cards, start, ports, from, counter)
  {
    hide Fresh, OfPort;
    var last := |ports| - 1;
    assert Turns(from, last, |from|) && cards[..start + |from|] == cards;
    forall i | 0 <= i < |ports| && i !in from ensures Covered(cards, start, ports[i], i, from) {
      if i < last { assert ports[..last][i] == ports[i]; }
    }
  }

  lemma PortPlaced(cards: seq<Card>, start: nat, ports: seq<Port>, from: seq<nat>, counter: int, card: Card)
    requires ports != [] && PortsOf(cards, start, ports[..|ports| - 1], from, counter)
    requires
      var last := ports[|ports| - 1];
      && Fresh(last, cards) != []
      && card == Card(Some(counter + |from| + 1), Fresh(last, cards), None, last.mac, true, false)
    ensures PortsOf(cards + [card], start, ports, from + [|ports| - 1], counter)
  {
    hide Fresh;
    var all, from' := cards + [card], from + [|ports| - 1];
    forall j | 0 <= j < |from'| ensures from'[j] < |ports| && OfPort(all, start + j, ports[from'[j]], counter + 1 + j) {
      assert all[..start + j] == cards[..start + j];
      if j == |from| { assert cards[..start + j] == cards; }
    }
    forall i | 0 <= i < |ports| && i !in from' ensures Covered(all, start, ports[i], i, from') {
      assert i < |ports| - 1 by { assert from'[|from|] in from'; }
      assert forall x :: x in from ==> x in from';
      assert Covered(cards, start, ports[i], i, from);
      var m :| 0 <= m <= |from| && Turns(from, i, m) && Fresh(ports[i], cards[..start + m]) == [];
      assert Turns(from', i, m) && all[..start + m] == cards[..start + m];
    }
  }

  /**
   The cards of a message: those of its networks, and then one for each port that still has
   an address on no card before it. Such a card has that port's mac and exactly those
   addresses in their order, and is numbered on from the networks' cards, or from bond0.
   */
  lemma PortCards(nets: seq<Network>, ports: seq<Port>) returns (from: seq<nat>, top: int)
    ensures Highest(AddressCards(nets), top)
    ensures AddressCards(nets) <= HostNetworks(nets, ports)
    ensures PortsOf(HostNetworks(nets, ports), |AddressCards(nets)|, ports, from, top)
  {
    hide AddressCards, AddPorts, PortsOf, Filter, NetCards, SetAside, Rising, HoldersKnown, NumberedOn, Highest, AddressesOf;
    var ordered, held, tail, high, _ := OrdersGoOn(nets);
    from := PortsFrom(AddressDeck(nets), ports);
    top := high + |tail|;
    HighestGoesOn(ordered + held, tail, Filter(NetCards(nets), NoOrder()), high);
  }

  lemma HighestGoesOn(base: seq<Card>, tail: seq<Card>, unordered: seq<Card>, top: int)
    requires Highest(base, top) && NumberedOn(tail, unordered, top)
    ensures Highest(base + tail, top + |tail|)
  {
    if tail != [] {
      assert tail[|tail| - 1] in base + tail;
      forall c | c in base + tail ensures c.order.Some? && c.order.value <= top + |tail| { }
    } else {
      assert base + tail == base;
    }
  }

  // -- the names ------------------------------------------------------------------------------------

  /** The names given to the placeholders among the first cards. */
  ghost function AsideNames(cards: seq<Card>, names: seq<string>): seq<string>
    requires |names| == |cards|
    decreases |cards|
  {
    if cards == [] then []
    else (if cards[0].placeholder then [names[0]] else []) + AsideNames(cards[1..], names[1..])
  }

  /** The bond name of the least number none of these names holds. */
  ghost predicate LeastFor(name: string, taken: seq<string>) {
    exists n: nat :: name == Bond(n) && !Held(taken, n) && forall k: nat :: k < n ==> Held(taken, k)
  }

  lemma LeastNext(taken: seq<string>)
    ensures LeastFor(NextBond(taken), taken)
  {
    hide NextBond, Held, Bond;
    NextBondIsLeastFree(taken);
  }

  /** Card number `i` has its own name: its order's, or for a placeholder the lowest that is free so far. */
  ghost predicate RightName(cards: seq<Card>, names: seq<string>, taken: seq<string>, i: nat)
    requires i < |cards| == |names|
  {
    if cards[i].placeholder then LeastFor(names[i], taken + AsideNames(cards[..i], names[..i]))
    else names[i] == "bond" + Str(OrderOf(cards[i]) - 1)
  }

  lemma RightLater(cards: seq<Card>, names: seq<string>, taken: seq<string>, i: nat)
    requires 1 <= i < |cards| == |names|
    requires RightName(cards[1..], names[1..], if cards[0].placeholder then taken + [names[0]] else taken, i - 1)
    ensures RightName(cards, names, taken, i)
  {
    hide LeastFor, Str, OrderOf;
    assert cards[..i][1..] == cards[1..][..i - 1] && names[..i][1..] == names[1..][..i - 1];
    var more := AsideNames(cards[1..][..i - 1], names[1..][..i - 1]);
    assert taken + ([names[0]] + more) == taken + [names[0]] + more;
    assert taken + ([] + more) == taken + more;
  }

  lemma RightFirst(cards: seq<Card>, taken: seq<string>)
    requires cards != []
    ensures RightName(cards, EndpointNames(cards, taken), taken, 0)
  {
    hide LeastFor, NextBond, Str, OrderOf;
    LeastNext(taken);
    assert AsideNames(cards[..0], EndpointNames(cards, taken)[..0]) == [] && taken + [] == taken;
  }

  /** A numbered card is `bond` and its order less one; a placeholder takes the lowest name free of those and of earlier placeholders'. */
  lemma {:induction false} NamesAre(cards: seq<Card>, taken: seq<string>)
    ensures forall i :: 0 <= i < |cards| ==> RightName(cards, EndpointNames(cards, taken), taken, i)
  {
    hide RightName, NextBond, Bond;
    if cards != [] {
      var names := EndpointNames(cards, taken);
      var taken' := if cards[0].placeholder then taken + [names[0]] else taken;
      assert names[1..] == EndpointNames(cards[1..], taken');
      NamesAre(cards[1..], taken');
      RightFirst(cards, taken);
      forall i | 1 <= i < |cards| ensures RightName(cards, names, taken, i) { RightLater(cards, names, taken, i); }
    }
  }

  /** The name of a numbered card. */
  ghost predicate NameOfSome(cards: seq<Card>, x: string) {
    exists c :: c in cards && !c.placeholder && x == "bond" + Str(OrderOf(c) - 1)
  }

  lemma NameOfSomeOn(cards: seq<Card>, x: string)
    requires cards != []
    ensures NameOfSome(cards, x) <==>
      (!cards[0].placeholder && x == "bond" + Str(OrderOf(cards[0]) - 1)) || NameOfSome(cards[1..], x)
  {
    hide OrderOf, Str;
    assert forall c :: c in cards <==> c == cards[0] || c in cards[1..];
  }

  /** The names kept for the numbered cards of a message, and no others. */
  lemma {:induction false} TakenAre(cards: seq<Card>)
    ensures forall x :: x in BondTaken(cards) <==> NameOfSome(cards, x)
  {
    hide OrderOf, Str, NameOfSome;
    if cards == [] {
      NoName();
    } else {
      TakenAre(cards[1..]);
      forall x ensures x in BondTaken(cards) <==> NameOfSome(cards, x) { NameOfSomeOn(cards, x); }
    }
  }

  lemma NoName()
    ensures forall x :: !NameOfSome([], x)
  {
  }
}
