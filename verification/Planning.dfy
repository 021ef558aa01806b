/** One card per network of the message: grouping, clashes, numbering and port deduplication. */
module Planning {
  import opened Basics
  import opened BondNames

  /** A dictionary field: absent, or present with a value that may be null. */
  datatype Field<+T> = Missing | Present(value: Option<T>)

  datatype AddressEntry = AddressEntry(addr: string, fixed: bool, mac: Field<string>, order: Field<int>)
  datatype Network = Network(name: string, entries: seq<AddressEntry>)
  datatype Port = Port(mac: Option<string>, ips: seq<string>)

  datatype Card = Card(
    order: Option<int>, addresses: seq<string>, name: Option<string>, mac: Option<string>,
    fromPort: bool, placeholder: bool)

  /** Python truth of an optional string. */
  predicate Truthy(s: Option<string>) { s.Some? && s.value != "" }

  // -- reading one network ---------------------------------------------------------

  function AddEntry(card: Card, e: AddressEntry): Card {
    if !e.fixed then card
    else card.(
      addresses := card.addresses + [e.addr],
      mac := if e.mac.Present? then e.mac.value else card.mac,
      order := if e.order.Present? then e.order.value else card.order)
  }

  function ReadEntries(card: Card, entries: seq<AddressEntry>): Card {
    if entries == [] then card
    else AddEntry(ReadEntries(card, entries[..|entries| - 1]), entries[|entries| - 1])
  }

  function CardOf(net: Network): Card {
    ReadEntries(Card(None, [], Some(net.name), None, false, false), net.entries)
  }

  // -- grouping ---------------------------------------------------------------------

  datatype Groups = Groups(byOrder: seq<Card>, unordered: seq<Card>, placeholders: seq<Card>)

  /** The position of the card that holds this order, or the length when none does. */
  function Holder(cards: seq<Card>, order: Option<int>): (k: nat)
    ensures k <= |cards|
    ensures k < |cards| ==> cards[k].order == order
    ensures forall i :: 0 <= i < k ==> cards[i].order != order
  {
    if cards == [] then 0
    else if cards[0].order == order then 0
    else 1 + Holder(cards[1..], order)
  }

  predicate Clash(a: Option<string>, b: Option<string>) { Truthy(a) && Truthy(b) && a != b }

  function MergeCards(clash: Card, card: Card): Card {
    clash.(addresses := clash.addresses + card.addresses, mac := if Truthy(clash.mac) then clash.mac else card.mac)
  }

  function Place(g: Groups, card: Card): Groups {
    if card.order.None? then g.(unordered := g.unordered + [card])
    else
      var k := Holder(g.byOrder, card.order);
      if k == |g.byOrder| then g.(byOrder := g.byOrder + [card])
      else if Clash(g.byOrder[k].mac, card.mac) then g.(placeholders := g.placeholders + [card.(placeholder := true)])
      else g.(byOrder := g.byOrder[k := MergeCards(g.byOrder[k], card)])
  }

  function Group(nets: seq<Network>): Groups {
    if nets == [] then Groups([], [], [])
    else Place(Group(nets[..|nets| - 1]), CardOf(nets[|nets| - 1]))
  }

  // -- numbering ----------------------------------------------------------------------

  function OrderOf(card: Card): int { if card.order.Some? then card.order.value else 0 }

  function InsertCard(card: Card, sorted: seq<Card>): seq<Card> {
    if sorted == [] || OrderOf(card) < OrderOf(sorted[0]) then [card] + sorted
    else [sorted[0]] + InsertCard(card, sorted[1..])
  }

  /** `sorted(..., key=order)`, stable. */
  function SortCards(cards: seq<Card>): seq<Card> {
    if cards == [] then [] else InsertCard(cards[|cards| - 1], SortCards(cards[..|cards| - 1]))
  }

  /** `max(..., default=0)` over the orders. */
  function TopOrder(cards: seq<Card>): (top: int)
    ensures forall c :: c in cards ==> OrderOf(c) <= top
    ensures cards != [] ==> exists c :: c in cards && OrderOf(c) == top
  {
    if cards == [] then 0
    else if |cards| == 1 then OrderOf(cards[0])
    else
      var rest := TopOrder(cards[..|cards| - 1]);
      var last := cards[|cards| - 1];
      assert last in cards && forall c :: c in cards[..|cards| - 1] ==> c in cards;
      assert forall c :: c in cards ==> c == last || c in cards[..|cards| - 1];
      if OrderOf(last) > rest then OrderOf(last) else rest
  }

  /** The unordered cards, numbered on from `counter`. */
  function NumberCards(cards: seq<Card>, counter: int): (r: seq<Card>)
    ensures |r| == |cards|
  {
    if cards == [] then []
    else [cards[0].(order := Some(counter + 1))] + NumberCards(cards[1..], counter + 1)
  }

  function AddressesOf(cards: seq<Card>): set<string> {
    set c, ip | c in cards && ip in c.addresses :: ip
  }

  // -- ports ----------------------------------------------------------------------------

  datatype Deck = Deck(cards: seq<Card>, counter: int, taken: set<string>)

  function NotIn(taken: set<string>): string -> bool { ip => ip !in taken }

  function ToSet(s: seq<string>): set<string> { set x | x in s }

  function AddPort(d: Deck, port: Port): Deck {
    var unseen := Filter(port.ips, NotIn(d.taken));
    if unseen == [] then d
    else Deck(
      d.cards + [Card(Some(d.counter + 1), unseen, None, port.mac, true, false)],
      d.counter + 1,
      d.taken + ToSet(unseen))
  }

  function AddPorts(d: Deck, ports: seq<Port>): Deck {
    if ports == [] then d else AddPort(AddPorts(d, ports[..|ports| - 1]), ports[|ports| - 1])
  }

  function AddressCards(nets: seq<Network>): seq<Card> {
    var g := Group(nets);
    var base := SortCards(g.byOrder) + g.placeholders;
    base + NumberCards(g.unordered, TopOrder(base))
  }

  function AddressDeck(nets: seq<Network>): Deck {
    var g := Group(nets);
    var cards := AddressCards(nets);
    Deck(cards, TopOrder(SortCards(g.byOrder) + g.placeholders) + |g.unordered|, AddressesOf(cards))
  }

  /** The cards of one create message, in the order they are written. */
  function HostNetworks(nets: seq<Network>, ports: seq<Port>): seq<Card> {
    AddPorts(AddressDeck(nets), ports).cards
  }

  // -- endpoint names ---------------------------------------------------------------------

  /** The names the bond-numbered cards own. */
  function BondTaken(cards: seq<Card>): (r: seq<string>)
    ensures forall c :: c in cards && !c.placeholder ==> Bond(OrderOf(c) - 1) in r
  {
    if cards == [] then []
    else if cards[0].placeholder then BondTaken(cards[1..])
    else [Bond(OrderOf(cards[0]) - 1)] + BondTaken(cards[1..])
  }

  /** A numbered card is `bond<order-1>`; a placeholder takes the lowest free name. */
  function EndpointNames(cards: seq<Card>, taken: seq<string>): (r: seq<string>)
    ensures |r| == |cards|
  {
    if cards == [] then []
    else if cards[0].placeholder then
      var name := NextBond(taken);
      [name] + EndpointNames(cards[1..], taken + [name])
    else [Bond(OrderOf(cards[0]) - 1)] + EndpointNames(cards[1..], taken)
  }

  // -- the source's loops ------------------------------------------------------------------

  method ReadNetwork(net: Network) returns (card: Card)
    ensures card == CardOf(net)
  {
    var blank := Card(None, [], Some(net.name), None, false, false);
    card := blank;
    for i := 0 to |net.entries|
      invariant card == ReadEntries(blank, net.entries[..i])
    {
      var e := net.entries[i];
      assert net.entries[..i + 1] == net.entries[..i] + [e];
      if e.fixed {
        card := card.(addresses := card.addresses + [e.addr]);
        if e.mac.Present? {
          card := card.(mac := e.mac.value);
        }
        if e.order.Present? {
          card := card.(order := e.order.value);
        }
      }
    }
    assert net.entries[..|net.entries|] == net.entries;
  }

  method GroupNetworks(nets: seq<Network>) returns (g: Groups)
    ensures g == Group(nets)
  {
    var byOrder: seq<Card>, unordered: seq<Card>, placeholders: seq<Card> := [], [], [];
    for i := 0 to |nets|
      invariant Groups(byOrder, unordered, placeholders) == Group(nets[..i])
    {
      assert nets[..i + 1][..i] == nets[..i];
      var card := ReadNetwork(nets[i]);
      if card.order.None? {
        unordered := unordered + [card];
      } else {
        var k := Holder(byOrder, card.order);
        if k == |byOrder| {
          byOrder := byOrder + [card];
        } else if Clash(byOrder[k].mac, card.mac) {
          placeholders := placeholders + [card.(placeholder := true)];
        } else {
          byOrder := byOrder[k := MergeCards(byOrder[k], card)];
        }
      }
    }
    assert nets[..|nets|] == nets;
    g := Groups(byOrder, unordered, placeholders);
  }

  method NumberUnordered(base: seq<Card>, unordered: seq<Card>) returns (cards: seq<Card>, counter: int)
    ensures cards == base + NumberCards(unordered, TopOrder(base))
    ensures counter == TopOrder(base) + |unordered|
  {
    cards := base;
    counter := TopOrder(cards);
    for i := 0 to |unordered|
      invariant counter == TopOrder(base) + i
      invariant cards + NumberCards(unordered[i..], counter) == base + NumberCards(unordered, TopOrder(base))
    {
      counter := counter + 1;
      assert unordered[i..][1..] == unordered[i + 1..];
      cards := cards + [unordered[i].(order := Some(counter))];
    }
    assert unordered[|unordered|..] == [];
  }

  method BuildHostNetworks(nets: seq<Network>, ports: seq<Port>) returns (cards: seq<Card>)
    ensures cards == HostNetworks(nets, ports)
  {
    hide Group, SortCards, TopOrder, NumberCards, AddressesOf, Filter, ToSet;
    var g := GroupNetworks(nets);
    var counter;
    cards, counter := NumberUnordered(SortCards(g.byOrder) + g.placeholders, g.unordered);
    var taken := AddressesOf(cards);
    ghost var start := Deck(cards, counter, taken);
    for i := 0 to |ports|
      invariant Deck(cards, counter, taken) == AddPorts(start, ports[..i])
    {
      assert ports[..i + 1][..i] == ports[..i];
      var unseen := Filter(ports[i].ips, NotIn(taken));
      if unseen != [] {
        counter := counter + 1;
        cards := cards + [Card(Some(counter), unseen, None, ports[i].mac, true, false)];
        taken := taken + ToSet(unseen);
      }
    }
    assert ports[..|ports|] == ports;
  }
}
