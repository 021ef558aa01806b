/** Attach under every tape, refused probes included: what still holds, and exactly when the rest does. */
module EveryTape {
  import opened Basics
  import opened BondNames
  import opened Cmdb
  import opened Planning
  import opened Retry
  import opened RetryProofs
  import opened StoreFacts
  import opened Attachments
  import opened AttachProofs
  import opened AttachConverges
  import opened Invariants
  import opened Tapes

  // -- the address insert may land more than once -------------------------------------------------

  /** `k` landings of one address insert, under consecutive keys. */
  function IpRows(op: Op, session: nat, from: nat, k: nat): (r: seq<Ip>)
    requires op.InsertIp?
    ensures |r| == k
    decreases k
  {
    if k == 0 then []
    else [Ip(Id(session, from), op.endpointId, op.addr, op.kind, op.prefix)] + IpRows(op, session, from + 1, k - 1)
  }

  /** The store gained `k` rows for this address insert, and nothing else changed. */
  ghost predicate Landings(w: World, w': World, op: Op, k: nat) {
    && op.InsertIp? && Quiet(w') && w'.session == w.session && w'.minted == w.minted + k && w'.errors == w.errors
    && w'.db == w.db.(ips := w.db.ips + IpRows(op, w.session, w.minted, k))
  }

  lemma NoLanding(w: World, w': World, op: Op)
    requires op.InsertIp? && Quiet(w') && w'.session == w.session && w'.minted == w.minted && w'.errors == w.errors && w'.db == w.db
    ensures Landings(w, w', op, 0)
  {
  }

  lemma OneMoreLanding(w: World, w1: World, w': World, op: Op, k: nat)
    requires op.InsertIp? && w1.db == Commit(w.db, op, FreshId(w)) && w1.minted == w.minted + 1 && w1.session == w.session
    requires w1.errors == w.errors && Landings(w1, w', op, k)
    ensures Landings(w, w', op, k + 1)
  {
    var row := Ip(FreshId(w), op.endpointId, op.addr, op.kind, op.prefix);
    assert w.db.ips + [row] + IpRows(op, w.session, w.minted + 1, k) == w.db.ips + ([row] + IpRows(op, w.session, w.minted + 1, k));
  }

  lemma {:induction false} IpIssued(w: World, uuid: string, op: Op, attempt: nat) returns (k: nat)
    requires Quiet(w) && op.InsertIp? && 1 <= attempt <= Tries(w)
    ensures k <= Tries(w) - attempt + 1 && Landings(w, Issue(w, op, AttachedIp(op.addr, uuid), RAISES_IP, attempt).w, op, k)
    decreases Tries(w) - attempt, 0
  {
    hide Commit, Reads, Met, Reselect, Exchange, Attempts, Landings;
    var sel := AttachedIp(op.addr, uuid);
    var sent := Exchange(w, op);
    InsertExchange(w, op);
    var rest := sent.w;
    k := 0;
    if sent.answer.Threw? && !sent.answer.exn.Perm? && attempt < Tries(w) {
      var next := Nap(sent.w, attempt);
      k := IpRetried(next, uuid, op, attempt + 1);
      rest := Attempts(next, op, sel, RAISES_IP, attempt + 1).w;
      SameLandings(sent.w, next, rest, op, k);
    } else {
      rest := Issue(w, op, sel, RAISES_IP, attempt).w;
      NoLanding(sent.w, rest, op);
    }
    if Lands(Fate(w)) {
      OneMoreLanding(w, sent.w, rest, op, k);
      k := k + 1;
    } else {
      SameLandings(w, sent.w, rest, op, k);
    }
  }

  lemma SameLandings(w: World, w1: World, w': World, op: Op, k: nat)
    requires w1.db == w.db && w1.minted == w.minted && w1.session == w.session && w1.errors == w.errors && Landings(w1, w', op, k)
    ensures Landings(w, w', op, k)
  {
  }

  /** Under every tape: at most one landing for each attempt left. */
  lemma {:induction false} IpRetried(w: World, uuid: string, op: Op, attempt: nat) returns (k: nat)
    requires Quiet(w) && op.InsertIp? && 1 <= attempt <= Tries(w)
    ensures k <= Tries(w) - attempt + 1 && Landings(w, Attempts(w, op, AttachedIp(op.addr, uuid), RAISES_IP, attempt).w, op, k)
    decreases Tries(w) - attempt, 1
  {
    hide Commit, Reads, Met, Reselect, Exchange, Issue, Landings;
    var sel := AttachedIp(op.addr, uuid);
    if attempt == 1 {
      k := IpIssued(w, uuid, op, attempt);
    } else {
      var found := Reselect(w, sel);
      ReselectReads(w, sel);
      k := 0;
      var t := Attempts(w, op, sel, RAISES_IP, attempt);
      if found.answer.Threw? && attempt < Tries(w) {
        k := IpRetried(Nap(found.w, attempt), uuid, op, attempt + 1);
        SameLandings(w, Nap(found.w, attempt), t.w, op, k);
      } else if found.answer == Got(Nothing) {
        k := IpIssued(found.w, uuid, op, attempt);
        SameLandings(w, found.w, t.w, op, k);
      } else {
        NoLanding(w, t.w, op);
      }
    }
  }

  // -- one delivery under every tape ---------------------------------------------------------------

  /** The prefix found for an address: the store's, or none where a lookup was refused. */
  predicate MayHave(catalog: Catalog, m: AttachMsg, port: AttachPort, prefix: Option<Prefix>) {
    prefix == None || prefix == StorePrefix(catalog, m.region, port.addr)
  }

  /** Nothing; the card; or the card and some rows for the address on it, one kind for all. */
  ghost predicate Dealt(w: World, m: AttachMsg, port: AttachPort, server: Id, o: Outcome, k: nat, op: Op) {
    var id := FreshId(w);
    var carded := Carded(w.db, m, port.mac, server, id);
    var grown := MintedWithCard(w.db, port.mac, server, w.minted);
    && o.w.errors == w.errors && Quiet(o.w) && o.w.session == w.session && k <= Tries(w)
    && (exists prefix :: MayHave(w.db.catalog, m, port, prefix) && op == NewIp(CardKey(w.db, port.mac, server, id), port.addr, prefix, UsedKinds(ViewOf(w.db, server))))
    && (|| (o.w.db == w.db && o.w.minted == w.minted)
        || (o.w.db == carded.(ips := carded.ips + IpRows(op, w.session, grown, k)) && o.w.minted == grown + k))
  }

  lemma DealtSame(w: World, w1: World, m: AttachMsg, port: AttachPort, server: Id, o: Outcome, k: nat, op: Op)
    requires w1.db == w.db && w1.minted == w.minted && w1.session == w.session && w1.errors == w.errors && w1.budget == w.budget
    requires Dealt(w1, m, port, server, o, k, op)
    ensures Dealt(w, m, port, server, o, k, op)
  {
    hide Carded, CardKey, MintedWithCard, ViewOf, UsedKinds, NewIp;
  }

  lemma Undealt(w: World, m: AttachMsg, port: AttachPort, server: Id, o: Outcome) returns (op: Op)
    requires o.w.errors == w.errors && Quiet(o.w) && o.w.session == w.session
    requires (o.w.db == w.db && o.w.minted == w.minted)
          || (o.w.db == Carded(w.db, m, port.mac, server, FreshId(w)) && o.w.minted == MintedWithCard(w.db, port.mac, server, w.minted))
    ensures Dealt(w, m, port, server, o, 0, op)
  {
    hide Carded, CardKey, MintedWithCard, ViewOf, UsedKinds;
    op := NewIp(CardKey(w.db, port.mac, server, FreshId(w)), port.addr, None, UsedKinds(ViewOf(w.db, server)));
    var carded := Carded(w.db, m, port.mac, server, FreshId(w));
    assert carded.ips + [] == carded.ips;
  }

  lemma AttachOnDealt(w: World, m: AttachMsg, uuid: string, port: AttachPort, server: Id) returns (k: nat, op: Op)
    requires Quiet(w)
    ensures Dealt(w, m, port, server, AttachOn(w, m, uuid, port, server, ViewOf(w.db, server)), k, op)
  {
    hide ViewOf, OnHost, Carded, CardKey, MintedWithCard, AttachCard, AttachPrefix, UsedKinds, Choose, NewIp, Call, Dealt;
    var endpoints := ViewOf(w.db, server);
    var o := AttachOn(w, m, uuid, port, server, endpoints);
    PrefixStage(w, port.addr, m.region);
    PrefixTells(w, port.addr, m.region);
    var prefix := AttachPrefix(w, port.addr, m.region);
    k := 0;
    if prefix.Broken? {
      op := Undealt(w, m, port, server, o);
    } else {
      CardStage(prefix.w, m, uuid, port, server);
      var card := AttachCard(prefix.w, m, uuid, port, server, endpoints);
      if card.Broken? || card.value.AlreadyThere? {
        op := Undealt(w, m, port, server, o);
      } else {
        op := NewIp(card.value.endpoint, port.addr, prefix.value, UsedKinds(endpoints));
        CallIsAttempts(card.w, op, AttachedIp(port.addr, uuid), RAISES_IP);
        k := IpRetried(card.w, uuid, op, 1);
        IpDealt(w, card.w, m, port, server, o, k, op, prefix.value);
      }
    }
  }

  lemma IpDealt(w: World, card: World, m: AttachMsg, port: AttachPort, server: Id, o: Outcome, k: nat, op: Op, prefix: Option<Prefix>)
    requires card.db == Carded(w.db, m, port.mac, server, FreshId(w)) && card.minted == MintedWithCard(w.db, port.mac, server, w.minted)
    requires card.session == w.session && card.errors == w.errors && card.budget == w.budget
    requires op == NewIp(CardKey(w.db, port.mac, server, FreshId(w)), port.addr, prefix, UsedKinds(ViewOf(w.db, server)))
    requires MayHave(w.db.catalog, m, port, prefix)
    requires k <= Tries(card) && Landings(card, o.w, op, k)
    ensures Dealt(w, m, port, server, o, k, op)
  {
    hide Carded, CardKey, MintedWithCard, ViewOf, UsedKinds, NewIp;
  }

  lemma AttachToDealt(w: World, m: AttachMsg, uuid: string, port: AttachPort, server: Id) returns (k: nat, op: Op)
    requires Quiet(w)
    ensures Dealt(w, m, port, server, AttachTo(w, m, uuid, port, server, ViewOf(w.db, server)), k, op)
  {
    hide ViewOf, AttachOn, Call, Dealt, Reads, Carded, MintedWithCard;
    var o := AttachTo(w, m, uuid, port, server, ViewOf(w.db, server));
    ProbeCall(w, port.addr, uuid);
    var probe := Call(w, SelectAttachedIp(port.addr, uuid), NoSelector, PROBE);
    if probe.answer == Got(Nothing) {
      k, op := AttachOnDealt(probe.w, m, uuid, port, server);
      DealtSame(w, probe.w, m, port, server, o, k, op);
    } else {
      k := 0;
      op := Undealt(w, m, port, server, o);
    }
  }

  /** What one delivery of an attach message does, under every tape. */
  ghost predicate AnyResult(w: World, m: AttachMsg, o: Outcome, k: nat, op: Op) {
    && o.w.errors == w.errors && Quiet(o.w)
    && if m.instance.None? || m.port.None? then o.w.db == w.db && o.w.minted == w.minted
       else
         match First(w.db.servers, Matching(None, Some(m.instance.value)))
         case None => o.w.db == w.db && o.w.minted == w.minted
         case Some(s) => Dealt(w, m, m.port.value, s.id, o, k, op)
  }

  lemma AttachDealt(w: World, m: AttachMsg) returns (k: nat, op: Op)
    requires Quiet(w)
    ensures AnyResult(w, m, Attach(w, m), k, op)
  {
    k := 0;
    op := SelectPrefixes("");
    if m.instance.Some? && m.port.Some? {
      var uuid, port := m.instance.value, m.port.value;
      var found := Call(w, SelectServerByUuid(uuid), NoSelector, RAISES_SERVER);
      var o := Attach(w, m);
      assert Reads(w.db, SelectServerByUuid(uuid), FreshId(w)) ==
        match First(w.db.servers, Matching(None, Some(uuid)))
        case Some(s) => ServerRow(s.id, ViewOf(w.db, s.id))
        case None => Nothing;
      hide ViewOf, AttachTo, Call, Dealt, Reads, Commit, Carded, MintedWithCard;
      ReadCall(w, SelectServerByUuid(uuid), RAISES_SERVER);
      var first := First(w.db.servers, Matching(None, Some(uuid)));
      if found.answer.Got? && found.answer.reply.ServerRow? {
        k, op := AttachToDealt(found.w, m, uuid, port, found.answer.reply.server);
        DealtSame(w, found.w, m, port, found.answer.reply.server, o, k, op);
      } else if first.Some? {
        op := Undealt(w, m, port, first.value.id, o);
      }
    }
  }

  // -- rows on the host -------------------------------------------------------------------------------

  lemma RowsAreAll(op: Op, session: nat, from: nat, k: nat)
    requires op.InsertIp?
    ensures forall x :: x in IpRows(op, session, from, k) ==> x.endpointId == op.endpointId && x.addr == op.addr && x.kind == op.kind
    decreases k
  {
    if k > 0 { RowsAreAll(op, session, from + 1, k - 1); }
  }

  lemma RowsOnHost(db: Db, op: Op, session: nat, from: nat, k: nat, uuid: string)
    requires op.InsertIp? && EndpointOnUuid(db, op.endpointId, uuid)
    ensures
      var rows := IpRows(op, session, from, k);
      OnHost(db.(ips := db.ips + rows), op.addr, uuid) == OnHost(db, op.addr, uuid) + rows
  {
    var rows := IpRows(op, session, from, k);
    var db' := db.(ips := db.ips + rows);
    RowsAreAll(op, session, from, k);
    assert forall id :: EndpointOnUuid(db', id, uuid) == EndpointOnUuid(db, id, uuid);
    hide EndpointOnUuid, Filter, IpRows;
    FilterConcat(db.ips, rows, AttachedTo(db', op.addr, uuid));
    FilterSame(db.ips, AttachedTo(db, op.addr, uuid), AttachedTo(db', op.addr, uuid));
    FilterAll(rows, AttachedTo(db', op.addr, uuid));
  }

  /** A delivery adds as many rows for the address as landed, and removes none. */
  ghost predicate HostGrows(w: World, m: AttachMsg, s: Server, w': World, k: nat)
    requires m.instance.Some? && m.port.Some?
  {
    && |OnHost(w'.db, m.port.value.addr, m.instance.value)| == |OnHost(w.db, m.port.value.addr, m.instance.value)| + k
    && w'.db.servers == w.db.servers && w'.db.rails == w.db.rails && w'.db.catalog == w.db.catalog
    && Quiet(w') && w'.session == w.session
  }

  lemma DealtHost(w: World, m: AttachMsg, s: Server, o: Outcome, k: nat, op: Op) returns (j: nat)
    requires Sound(w) && m.instance.Some? && m.port.Some? && ServerHasUuid(w.db, s.id, m.instance.value)
    requires Dealt(w, m, m.port.value, s.id, o, k, op)
    ensures j <= k && HostGrows(w, m, s, o.w, j)
  {
    var uuid, port := m.instance.value, m.port.value;
    var id := FreshId(w);
    var carded := Carded(w.db, m, port.mac, s.id, id);
    var grown := MintedWithCard(w.db, port.mac, s.id, w.minted);
    CardedReady(w.db, m, port, s.id, uuid, w.session, w.minted);
    CardedRest(w.db, m, port.mac, s.id, id);
    hide Carded, CardKey, MintedWithCard, ViewOf, UsedKinds, OnHost, EndpointOnUuid, ServerHasUuid, Keyed, Unborn, IpRows;
    if o.w.db == w.db && o.w.minted == w.minted {
      j := 0;
    } else {
      j := k;
      RowsOnHost(carded, op, w.session, grown, k, uuid);
    }
  }

  lemma CardedRest(db: Db, m: AttachMsg, mac: Option<string>, server: Id, id: Id)
    ensures
      var carded := Carded(db, m, mac, server, id);
      carded.servers == db.servers && carded.rails == db.rails && carded.catalog == db.catalog && carded.ips == db.ips
  {
    hide ViewOf, Choose, NextBond;
  }

  /** Keys stay distinct and fresh under every tape. */
  lemma DealtSound(w: World, m: AttachMsg, port: AttachPort, server: Id, o: Outcome, k: nat, op: Op)
    requires Sound(w) && Born(server, w.session, w.minted) && Dealt(w, m, port, server, o, k, op)
    ensures Sound(o.w)
  {
    hide Carded, FilledIn, Unborn, Choose;
    var id := FreshId(w);
    var carded := Carded(w.db, m, port.mac, server, id);
    var grown := MintedWithCard(w.db, port.mac, server, w.minted);
    CardedSound(w.db, m, port.mac, server, w.session, w.minted);
    hide Carded, CardKey, MintedWithCard, ViewOf, UsedKinds, Keyed, Unborn, IpRows;
    if o.w.db != w.db || o.w.minted != w.minted {
      RowsSound(carded, op, w.session, grown, k);
    }
  }

  lemma {:induction false} RowsSound(db: Db, op: Op, session: nat, from: nat, k: nat)
    requires op.InsertIp? && Keyed(db) && Unborn(db, session, from) && Born(op.endpointId, session, from)
    ensures
      var db' := db.(ips := db.ips + IpRows(op, session, from, k));
      Keyed(db') && Unborn(db', session, from + k)
    decreases k
  {
    hide Unborn;
    if k == 0 {
      assert db.ips + [] == db.ips;
    } else {
      var row := Ip(Id(session, from), op.endpointId, op.addr, op.kind, op.prefix);
      CommitSound(db, op, session, from);
      var next := db.(ips := db.ips + [row]);
      assert next == Commit(db, op, Id(session, from));
      hide Keyed, Unborn, Commit;
      RowsSound(next, op, session, from + 1, k - 1);
      assert next.ips + IpRows(op, session, from + 1, k - 1) == db.ips + IpRows(op, session, from, k);
    }
  }

  lemma FoundServer(db: Db, uuid: string, s: Server, session: nat, minted: nat)
    requires First(db.servers, Matching(None, Some(uuid))) == Some(s) && Unborn(db, session, minted)
    ensures ServerHasUuid(db, s.id, uuid) && Born(s.id, session, minted)
  {
  }

  /** One delivery on a found server, under every tape. */
  lemma AnyDelivery(w: World, m: AttachMsg, s: Server) returns (j: nat)
    requires Quiet(w) && Sound(w) && m.instance.Some? && m.port.Some?
    requires First(w.db.servers, Matching(None, Some(m.instance.value))) == Some(s)
    ensures j <= Tries(w) && HostGrows(w, m, s, Attach(w, m).w, j) && Sound(Attach(w, m).w)
  {
    hide Attach, Dealt, HostGrows, Keyed, ServerHasUuid, First, Matching;
    var k, op := AttachDealt(w, m);
    FoundServer(w.db, m.instance.value, s, w.session, w.minted);
    hide Unborn;
    j := DealtHost(w, m, s, Attach(w, m), k, op);
    DealtSound(w, m, m.port.value, s.id, Attach(w, m), k, op);
    DealtTries(w, m, m.port.value, s.id, Attach(w, m), k, op);
  }

  lemma DealtTries(w: World, m: AttachMsg, port: AttachPort, server: Id, o: Outcome, k: nat, op: Op)
    requires Dealt(w, m, port, server, o, k, op)
    ensures k <= Tries(w)
  {
  }

  // -- a tape that leads to the address insert ------------------------------------------------------------

  /** The server is found, and the probe refused: past both, whatever the host holds. */
  ghost function Probed(w: World, m: AttachMsg): World
    requires m.instance.Some? && m.port.Some?
  {
    var found := Call(w.(tape := [Replies, Rejected(DataError)]), SelectServerByUuid(m.instance.value), NoSelector, RAISES_SERVER);
    Call(found.w, SelectAttachedIp(m.port.value.addr, m.instance.value), NoSelector, PROBE).w
  }

  lemma ProbeRefused(w: World, addr: string, uuid: string, rest: seq<Fault>)
    requires Quiet(w)
    ensures
      var v := w.(tape := [Rejected(DataError)] + rest);
      var u := Call(w.(tape := [Rejected(DataError)]), SelectAttachedIp(addr, uuid), NoSelector, PROBE).w;
      && Call(v, SelectAttachedIp(addr, uuid), NoSelector, PROBE) == Turn(u.(tape := rest), Got(Nothing))
      && u.tape == [] && u.db == w.db && u.minted == w.minted && u.errors == w.errors
  {
    hide Commit, Reads;
    var q, v, u := SelectAttachedIp(addr, uuid), w.(tape := [Rejected(DataError)] + rest), w.(tape := [Rejected(DataError)]);
    assert v.tape[1..] == rest && u.tape[1..] == [];
    assert Attempts(v, q, NoSelector, PROBE, 1) == Issue(v, q, NoSelector, PROBE, 1);
    assert Attempts(u, q, NoSelector, PROBE, 1) == Issue(u, q, NoSelector, PROBE, 1);
  }

  lemma FirstReplied(w: World, op: Op, o: Opts, rest: seq<Fault>)
    requires Quiet(w) && !op.Write()
    ensures
      var t := Call(w.(tape := [Replies] + rest), op, NoSelector, o);
      && t.w.db == w.db && t.w.minted == w.minted && t.w.errors == w.errors
      && t.answer == Got(Reads(w.db, op, FreshId(w)))
      && t.w.tape == rest && forall other :: Call(w.(tape := [Replies] + other), op, NoSelector, o) == Turn(t.w.(tape := other), t.answer)
  {
    hide Call, Reads, Commit;
    var u := w.(tape := []);
    SelectOnlyReads(w.db, op, FreshId(w), FreshId(w));
    forall other ensures Call(w.(tape := [Replies] + other), op, NoSelector, o) == Turn(Call(u, op, NoSelector, o).w.(tape := other), Call(u, op, NoSelector, o).answer) {
      CallPads(u, op, NoSelector, o, other);
      assert After(u, 1, other) == w.(tape := [Replies] + other);
    }
    CallPads(u, op, NoSelector, o, rest);
    assert After(u, 1, rest) == w.(tape := [Replies] + rest);
  }

  lemma ProbedPads(w: World, m: AttachMsg, s: Server, rest: seq<Fault>)
    requires Quiet(w) && m.instance.Some? && m.port.Some?
    requires First(w.db.servers, Matching(None, Some(m.instance.value))) == Some(s)
    ensures
      var p := Probed(w, m);
      && Attach(w.(tape := [Replies, Rejected(DataError)] + rest), m)
         == AttachOn(p.(tape := rest), m, m.instance.value, m.port.value, s.id, ViewOf(w.db, s.id))
      && p.tape == [] && p.db == w.db && p.minted == w.minted && p.errors == w.errors && Quiet(p)
  {
    hide Call, Filter;
    var uuid, port := m.instance.value, m.port.value;
    var q, tail := SelectServerByUuid(uuid), [Rejected(DataError)] + rest;
    assert [Replies, Rejected(DataError)] + rest == [Replies] + tail && [Replies, Rejected(DataError)] == [Replies] + [Rejected(DataError)];
    assert Reads(w.db, q, FreshId(w)) == ServerRow(s.id, ViewOf(w.db, s.id));
    hide AttachOn, Call, ViewOf, Reads;
    FirstReplied(w, q, RAISES_SERVER, tail);
    FirstReplied(w, q, RAISES_SERVER, [Rejected(DataError)]);
    var found := Call(w.(tape := [Replies] + tail), q, NoSelector, RAISES_SERVER).w;
    ProbeRefused(found, port.addr, uuid, rest);
    assert found.(tape := tail) == found;
  }

  /** The run up to the address insert, every request after the probe replying. */
  ghost function Reached(w: World, m: AttachMsg, server: Id): World
    requires m.instance.Some? && m.port.Some?
  {
    var prefix := AttachPrefix(Probed(w, m), m.port.value.addr, m.region);
    AttachCard(prefix.w, m, m.instance.value, m.port.value, server, ViewOf(w.db, server)).w
  }

  ghost function Lead(w: World, m: AttachMsg, server: Id): seq<Fault>
    requires m.instance.Some? && m.port.Some?
  {
    [Replies, Rejected(DataError)] + Reps(Asked(Probed(w, m), Reached(w, m, server)))
  }

  /** The address insert an attach on this store comes to. */
  ghost function IpOp(w: World, m: AttachMsg, server: Id): (op: Op)
    requires m.instance.Some? && m.port.Some?
    ensures op.InsertIp? && op.addr == m.port.value.addr
  {
    var port := m.port.value;
    NewIp(CardKey(w.db, port.mac, server, FreshId(w)), port.addr, StorePrefix(w.db.catalog, m.region, port.addr), UsedKinds(ViewOf(w.db, server)))
  }

  lemma OnPads(p: World, m: AttachMsg, uuid: string, port: AttachPort, server: Id, rest: seq<Fault>)
    requires Quiet(p) && p.tape == []
    ensures
      var endpoints := ViewOf(p.db, server);
      var prefix := AttachPrefix(p, port.addr, m.region);
      var card := AttachCard(prefix.w, m, uuid, port, server, endpoints);
      var op := NewIp(CardKey(p.db, port.mac, server, FreshId(p)), port.addr, StorePrefix(p.db.catalog, m.region, port.addr), UsedKinds(endpoints));
      && AttachOn(After(p, Asked(p, card.w), rest), m, uuid, port, server, endpoints) == AttachIp(card.w.(tape := rest), uuid, port.addr, op)
      && card.w.db == Carded(p.db, m, port.mac, server, FreshId(p)) && card.w.minted == MintedWithCard(p.db, port.mac, server, p.minted)
      && card.w.errors == p.errors && Quiet(card.w) && card.w.tape == []
  {
    hide AttachPrefix, AttachCard, AttachIp, ViewOf, Carded, CardKey, MintedWithCard, UsedKinds, StorePrefix, NewIp, OnHost;
    var endpoints := ViewOf(p.db, server);
    var prefix := AttachPrefix(p, port.addr, m.region);
    var card := AttachCard(prefix.w, m, uuid, port, server, endpoints);
    var a, b := Asked(p, prefix.w), Asked(prefix.w, card.w);
    AttachPrefixPads(p, port.addr, m.region, Reps(b) + rest);
    AttachCardPads(prefix.w, m, uuid, port, server, endpoints, rest);
    TwoPads(p, a, b, rest);
    CardStage(prefix.w, m, uuid, port, server);
  }

  /** With a leading tape the address insert is reached, and then the rest of the tape decides. */
  lemma Reaches(w: World, m: AttachMsg, s: Server, rest: seq<Fault>)
    requires Quiet(w) && m.instance.Some? && m.port.Some?
    requires First(w.db.servers, Matching(None, Some(m.instance.value))) == Some(s)
    ensures
      var r := Reached(w, m, s.id);
      && Attach(w.(tape := Lead(w, m, s.id) + rest), m) == AttachIp(r.(tape := rest), m.instance.value, m.port.value.addr, IpOp(w, m, s.id))
      && r.db == Carded(w.db, m, m.port.value.mac, s.id, FreshId(w)) && r.minted == MintedWithCard(w.db, m.port.value.mac, s.id, w.minted)
      && r.errors == w.errors && Quiet(r) && r.tape == [] && r.session == w.session && r.budget == w.budget
  {
    hide AttachPrefix, AttachCard, AttachIp, AttachOn, Attach, ViewOf, Carded, CardKey, MintedWithCard, UsedKinds, StorePrefix, NewIp, Probed, First, Matching;
    var p := Probed(w, m);
    var n := Asked(p, Reached(w, m, s.id));
    ProbedPads(w, m, s, Reps(n) + rest);
    OnPads(p, m, m.instance.value, m.port.value, s.id, rest);
    assert Lead(w, m, s.id) + rest == [Replies, Rejected(DataError)] + (Reps(n) + rest);
  }
}
