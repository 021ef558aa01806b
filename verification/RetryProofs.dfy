/** What the retry engine guarantees, for every fault tape and every budget. */
module RetryProofs {
  import opened Basics
  import opened Cmdb
  import opened Retry

  /** No other message touches the store while this one runs. */
  ghost predicate Quiet(w: World) { w.crowd.asks == [] }

  /** No probe for an attached address ever failed permanently. */
  ghost predicate Honest(log: seq<Event>) {
    forall e :: e in log && e.Sent? && e.op.SelectAttachedIp? ==> !e.fault.Rejected?
  }

  function FreshId(w: World): Id { Id(w.session, w.minted) }

  /**
   A select that is refused is raised, so only the re-select that ends in a probe for an
   attached address needs honest probes: the attach endpoint's ends in a bare select.
   */
  ghost predicate Trusted(sel: Selector, log: seq<Event>) { sel.AttachedIp? ==> Honest(log) }

  lemma HonestPrefix(a: seq<Event>, b: seq<Event>)
    requires a <= b && Honest(b)
    ensures Honest(a)
  {
    assert forall e :: e in a ==> e in b;
  }

  // -- requests that are not inserts may land twice without harm --------------------

  lemma CommitIdempotent(db: Db, op: Op, id: Id)
    requires !op.Insert()
    ensures Commit(Commit(db, op, id), op, id) == Commit(db, op, id)
  {
    var db' := Commit(db, op, id);
    hide HasIps, ServerHasUuid, EndpointOnUuid;
    match op
    case UpdateServers(h, u, m) => UpdateIdempotent(db, h, u, m, id);
    case DeleteServer(s) => FilterAll(db'.servers, NotServer(s));
    case DeleteRail(r) => FilterAll(db'.rails, NotRail(r));
    case UpdateEndpoint(e, mac, notes) =>
      assert db'.endpoints == Commit(db', op, id).endpoints;
    case SweepEndpoints(u) => SweepIdempotent(db, u, id);
    case DeleteAttachedIps(addr, u) => DetachIdempotent(db, addr, u, id);
    case _ =>
  }

  lemma MutatedTwice(rows: seq<Server>, h: Option<string>, u: Option<string>, m: Cols)
    ensures Map(Map(rows, Mutated(h, u, m)), Mutated(h, u, m)) == Map(rows, Mutated(h, u, m))
  {
    var f := Mutated(h, u, m);
    forall i | 0 <= i < |rows| ensures Map(Map(rows, f), f)[i] == Map(rows, f)[i] {
      assert rows[i].cols + m + m == rows[i].cols + m;
    }
    assert |Map(Map(rows, f), f)| == |Map(rows, f)|;
  }

  lemma UpdateIdempotent(db: Db, h: Option<string>, u: Option<string>, m: Cols, id: Id)
    ensures var op := UpdateServers(h, u, m); Commit(Commit(db, op, id), op, id) == Commit(db, op, id)
  {
    var op := UpdateServers(h, u, m);
    var db' := Commit(db, op, id);
    if Accepted(db, m) {
      hide Accepted, WhereServer;
      MutatedTwice(db.servers, h, u, m);
    }
  }

  lemma SweepIdempotent(db: Db, u: string, id: Id)
    ensures var op := SweepEndpoints(u); Commit(Commit(db, op, id), op, id) == Commit(db, op, id)
  {
    var db' := Commit(db, SweepEndpoints(u), id);
    assert forall k :: HasIps(db', k) == HasIps(db, k) && ServerHasUuid(db', k, u) == ServerHasUuid(db, k, u);
    hide HasIps, ServerHasUuid;
    FilterSame(db'.endpoints, KeptOnSweep(db, u), KeptOnSweep(db', u));
    FilterAll(db'.endpoints, KeptOnSweep(db, u));
  }

  lemma DetachIdempotent(db: Db, addr: string, u: string, id: Id)
    ensures var op := DeleteAttachedIps(addr, u); Commit(Commit(db, op, id), op, id) == Commit(db, op, id)
  {
    var db' := Commit(db, DeleteAttachedIps(addr, u), id);
    assert db'.ips == Filter(db.ips, NotAttachedTo(db, addr, u));
    assert forall k :: EndpointOnUuid(db', k, u) == EndpointOnUuid(db, k, u);
    hide EndpointOnUuid, Filter;
    FilterSame(db'.ips, NotAttachedTo(db, addr, u), NotAttachedTo(db', addr, u));
    FilterAll(db'.ips, NotAttachedTo(db, addr, u));
  }

  lemma SelectOnlyReads(db: Db, op: Op, id: Id, other: Id)
    requires !op.Write()
    ensures Commit(db, op, id) == db && Reads(db, op, id) == Reads(db, op, other) && Accepts(db, op)
  {
  }

  /** At most one entry is recorded by one call, and only for a permanent failure. */
  ghost predicate Reported(w: World, t: Turn, o: Opts) {
    || t.w.errors == w.errors
    || (&& o.report.Some?
        && t.w.errors == w.errors + [Entry(o.field, Message(o.field), o.report.value.mark, o.report.value.listed)]
        && (t.answer == Threw(CmdbAbort) || t.answer == Got(Nothing)))
  }

  /** A call without selector: the store either never saw the request or saw it as if once. */
  ghost predicate PlainResult(w: World, op: Op, o: Opts, t: Turn) {
    var id := FreshId(w);
    && t.w.minted == w.minted
    && (t.w.db == w.db || t.w.db == Commit(w.db, op, id))
    && Reported(w, t, o)
    && (t.answer.Threw? ==> t.answer.exn == Transport || (o.raises && t.answer.exn == CmdbAbort))
    && (t.answer.Got? && t.answer.reply != Nothing ==> t.w.db == Commit(w.db, op, id))
    && (t.answer.Got? && o.raises ==> t.w.db == Commit(w.db, op, id))
    && (t.answer.Got? && t.answer.reply != Nothing ==> Accepts(w.db, op))
    && (t.answer == Got(Nothing) && op.Write() && o.report.Some? ==> t.w.errors != w.errors)
    && (!op.Write() && t.answer.Got? ==> t.answer.reply == Reads(w.db, op, id) || t.answer.reply == Nothing)
    && (!op.Write() && t.answer.Got? && o.raises ==> t.answer.reply == Reads(w.db, op, id))
  }

  lemma {:induction false} PlainCall(w: World, op: Op, o: Opts, attempt: nat)
    requires Quiet(w) && !op.Insert() && 1 <= attempt <= Tries(w)
    ensures PlainResult(w, op, o, Attempts(w, op, NoSelector, o, attempt))
    decreases Tries(w) - attempt
  {
    hide Exchange, Reads, Commit, Met, Accepts, PlainResult, Fail;
    var sent := Exchange(w, op);
    assert Attempts(w, op, NoSelector, o, attempt) == Issue(w, op, NoSelector, o, attempt);
    if sent.answer.Threw? && !sent.answer.exn.Perm? && attempt < Tries(w) {
      var next := Nap(sent.w, attempt);
      PlainSent(w, op);
      PlainCall(next, op, o, attempt + 1);
      PlainAgain(w, next, op, o, Attempts(next, op, NoSelector, o, attempt + 1));
    } else {
      PlainLast(w, op, o);
    }
  }

  /** What a request that is not an insert does to the world. */
  lemma PlainSent(w: World, op: Op)
    requires Quiet(w) && !op.Insert()
    ensures
      var v := Exchange(w, op).w;
      v.errors == w.errors && v.minted == w.minted && (v.db == w.db || v.db == Commit(w.db, op, FreshId(w)))
  {
    hide Reads, Commit;
  }

  /** A request that ends its call. */
  lemma PlainLast(w: World, op: Op, o: Opts)
    requires Quiet(w) && !op.Insert()
    ensures
      var sent := Exchange(w, op);
      PlainResult(w, op, o, if sent.answer.Threw? && sent.answer.exn.Perm? then Fail(sent.w, o) else sent)
  {
    hide Commit;
  }

  /** A repeat acts as the request alone would. */
  lemma PlainAgain(w: World, w1: World, op: Op, o: Opts, t: Turn)
    requires !op.Insert() && w1.session == w.session && w1.minted == w.minted && w1.errors == w.errors && w1.db.catalog == w.db.catalog
    requires w1.db == w.db || w1.db == Commit(w.db, op, FreshId(w))
    requires PlainResult(w1, op, o, t)
    ensures PlainResult(w, op, o, t)
  {
    CommitIdempotent(w.db, op, FreshId(w));
    if !op.Write() { SelectOnlyReads(w.db, op, FreshId(w), FreshId(w)); }
    hide Commit, Reads;
  }

  /** Unless it is rejected, the attach probe reports exactly what is there. */
  lemma {:induction false} HonestProbe(w: World, addr: string, uuid: string, attempt: nat)
    requires Quiet(w) && 1 <= attempt <= Tries(w)
    ensures
      var t := Attempts(w, SelectAttachedIp(addr, uuid), NoSelector, PROBE, attempt);
      t.answer.Got? && Honest(t.w.log) ==> t.answer.reply == Reads(w.db, SelectAttachedIp(addr, uuid), FreshId(w))
    decreases Tries(w) - attempt
  {
    hide EndpointOnUuid;
    var op := SelectAttachedIp(addr, uuid);
    var sent := Exchange(w, op);
    assert sent.w.log[|w.log|] == Sent(op, Fate(w), sent.answer);
    assert Attempts(w, op, NoSelector, PROBE, attempt) == Issue(w, op, NoSelector, PROBE, attempt);
    if sent.answer.Threw? && !sent.answer.exn.Perm? && attempt < Tries(w) {
      HonestProbe(Nap(sent.w, attempt), addr, uuid, attempt + 1);
    }
  }

  // -- inserts land at most once --------------------------------------------------------

  /** A selector only reads. */
  ghost predicate Reader(sel: Selector) { sel.Once? ==> !sel.query.Write() }

  /** What a re-select that goes through reports about a store. */
  ghost function Finds(sel: Selector, db: Db): Reply
    requires !sel.NoSelector?
  {
    var id := Id(0, 0);
    match sel
    case Once(query) => Reads(db, query, id)
    case AttachedIp(addr, uuid) => Reads(db, SelectAttachedIp(addr, uuid), id)
    case AttachEndpoint(addr, uuid, server, name) =>
      match Reads(db, SelectAttachedIp(addr, uuid), id)
      case IpRef(_, onEndpoint, onName) => EndpointRef(onEndpoint, onName, true)
      case _ => Reads(db, SelectEndpointByName(server, name), id)
  }

  /** What a re-select may report: a refused first probe of the attach endpoint's leaves the second. */
  ghost predicate MayFind(sel: Selector, db: Db, reply: Reply)
    requires !sel.NoSelector?
  {
    || reply == Finds(sel, db)
    || (sel.AttachEndpoint? && reply == Reads(db, SelectEndpointByName(sel.server, sel.name), Id(0, 0)))
  }

  /** Whatever a re-select reports about this store, it is a row. */
  ghost predicate Caught(sel: Selector, db: Db)
    requires !sel.NoSelector?
  {
    Finds(sel, db) != Nothing && (sel.AttachEndpoint? ==> Reads(db, SelectEndpointByName(sel.server, sel.name), Id(0, 0)) != Nothing)
  }

  /** The selector is a natural key of the row: once the insert landed, it finds a row. */
  ghost predicate Detects(sel: Selector, db: Db, op: Op) {
    !sel.NoSelector? && forall id {:trigger Commit(db, op, id)} :: Caught(sel, Commit(db, op, id))
  }

  /** A probe, refused or not: what is there, or nothing. */
  lemma ProbeReads(w: World, addr: string, uuid: string)
    requires Quiet(w)
    ensures
      var q := SelectAttachedIp(addr, uuid);
      var t := Attempts(w, q, NoSelector, PROBE, 1);
      && t.w.db == w.db && (t.answer.Got? ==> t.answer.reply == Reads(w.db, q, Id(0, 0)) || t.answer.reply == Nothing)
  {
    hide Commit, Reads, Met;
    SelectOnlyReads(w.db, SelectAttachedIp(addr, uuid), FreshId(w), Id(0, 0));
    PlainCall(w, SelectAttachedIp(addr, uuid), PROBE, 1);
  }

  /** A re-select changes nothing, and unless a probe for an attached address is rejected it tells the truth. */
  lemma ReselectReads(w: World, sel: Selector)
    requires Quiet(w) && !sel.NoSelector? && Reader(sel)
    ensures
      var t := Reselect(w, sel);
      && t.w.db == w.db && t.w.minted == w.minted && t.w.errors == w.errors
      && (t.answer.Got? && Trusted(sel, t.w.log) ==> MayFind(sel, w.db, t.answer.reply))
      && t.answer != Threw(CmdbAbort)
  {
    hide Commit, Reads, Met;
    match sel
    case Once(query) =>
      SelectOnlyReads(w.db, query, FreshId(w), Id(0, 0));
    case AttachedIp(addr, uuid) =>
      SelectOnlyReads(w.db, SelectAttachedIp(addr, uuid), FreshId(w), Id(0, 0));
      PlainCall(w, SelectAttachedIp(addr, uuid), PROBE, 1);
      HonestProbe(w, addr, uuid, 1);
    case AttachEndpoint(addr, uuid, server, name) =>
      SelectOnlyReads(w.db, SelectAttachedIp(addr, uuid), FreshId(w), Id(0, 0));
      SelectOnlyReads(w.db, SelectEndpointByName(server, name), FreshId(w), Id(0, 0));
      PlainCall(w, SelectAttachedIp(addr, uuid), PROBE, 1);
      ProbeReads(w, addr, uuid);
      var probe := Attempts(w, SelectAttachedIp(addr, uuid), NoSelector, PROBE, 1);
  }

  /** Once the row is there, retrying only ever finds it: nothing is inserted again. */
  lemma {:induction false} RetryAfterLanding(w: World, op: Op, sel: Selector, o: Opts, attempt: nat)
    requires Quiet(w) && !sel.NoSelector? && Reader(sel) && 2 <= attempt <= Tries(w)
    requires Caught(sel, w.db)
    requires Trusted(sel, Attempts(w, op, sel, o, attempt).w.log)
    ensures
      var t := Attempts(w, op, sel, o, attempt);
      && t.w.db == w.db && t.w.minted == w.minted && t.w.errors == w.errors
      && (t.answer.Got? ==> MayFind(sel, w.db, t.answer.reply))
      && t.answer != Threw(CmdbAbort)
    decreases Tries(w) - attempt
  {
    hide Commit, Reads, Met, Reselect, Exchange, Issue, Finds;
    var found := Reselect(w, sel);
    ReselectReads(w, sel);
    if sel.AttachedIp? { HonestPrefix(found.w.log, Attempts(w, op, sel, o, attempt).w.log); }
    if found.answer.Threw? && attempt < Tries(w) {
      RetryAfterLanding(Nap(found.w, attempt), op, sel, o, attempt + 1);
    }
  }

  /** The outcome of a guarded insert: at most one landing, and a returned row is in the store. */
  ghost predicate InsertResult(w: World, op: Op, sel: Selector, o: Opts, t: Turn)
    requires !sel.NoSelector?
  {
    var id := FreshId(w);
    var landed := Commit(w.db, op, id);
    && Reported(w, t, o)
    && (|| (t.w.db == w.db && t.w.minted == w.minted)
        || (t.w.db == landed && t.w.minted == w.minted + 1))
    && (t.answer.Got? && t.answer.reply != Nothing ==>
          || (t.w.db == landed && t.w.minted == w.minted + 1
              && (t.answer.reply == Reads(w.db, op, id) || MayFind(sel, landed, t.answer.reply)))
          || (t.w.db == w.db && MayFind(sel, w.db, t.answer.reply)))
    && (t.answer == Got(Nothing) ==> !o.raises && (o.report.Some? ==> t.w.errors != w.errors))
    && (t.answer == Threw(CmdbAbort) ==> t.w.db == w.db && t.w.minted == w.minted)
  }

  /** The attach probe, on any store and under any faults: a refusal is neither raised nor recorded. */
  lemma {:induction false} ProbeSilent(w: World, addr: string, uuid: string, attempt: nat)
    requires 1 <= attempt <= Tries(w)
    ensures
      var t := Attempts(w, SelectAttachedIp(addr, uuid), NoSelector, PROBE, attempt);
      t.w.errors == w.errors && (t.answer.Threw? ==> t.answer.exn == Transport)
    decreases Tries(w) - attempt
  {
    hide Commit, Reads, Met;
    var op := SelectAttachedIp(addr, uuid);
    assert Attempts(w, op, NoSelector, PROBE, attempt) == Issue(w, op, NoSelector, PROBE, attempt);
    var sent := Exchange(w, op);
    if sent.answer.Threw? && !sent.answer.exn.Perm? && attempt < Tries(w) {
      hide Exchange;
      ProbeSilent(Nap(sent.w, attempt), addr, uuid, attempt + 1);
    }
  }

  /** The four ways one insert request can end. */
  lemma InsertExchange(w: World, op: Op)
    requires Quiet(w) && op.Insert()
    ensures
      var t := Exchange(w, op);
      && t.w.errors == w.errors && t.w.budget == w.budget && t.w.session == w.session && Quiet(t.w)
      && (t.answer.Got? ==> t.answer.reply == Reads(w.db, op, FreshId(w)) && Lands(Fate(w)))
      && (t.answer.Threw? ==> t.answer.exn == Transport || t.answer.exn.Perm?)
      && (t.answer.Threw? && t.answer.exn.Perm? ==> !Lands(Fate(w)))
      && (if Lands(Fate(w)) then t.w.db == Commit(w.db, op, FreshId(w)) && t.w.minted == w.minted + 1
          else t.w.db == w.db && t.w.minted == w.minted)
  {
    hide Commit, Reads;
  }

  lemma {:induction false} InsertIssued(w: World, op: Op, sel: Selector, o: Opts, attempt: nat)
    requires Quiet(w) && op.Insert() && Reader(sel) && Detects(sel, w.db, op) && 1 <= attempt <= Tries(w)
    requires Trusted(sel, Issue(w, op, sel, o, attempt).w.log)
    ensures InsertResult(w, op, sel, o, Issue(w, op, sel, o, attempt))
    decreases Tries(w) - attempt, 0
  {
    hide Commit, Reads, Met, Reselect, Exchange, Finds, Attempts;
    var sent := Exchange(w, op);
    InsertExchange(w, op);
    if sent.answer.Threw? && !sent.answer.exn.Perm? && attempt < Tries(w) {
      var next := Nap(sent.w, attempt);
      if Lands(Fate(w)) {
        assert Caught(sel, Commit(w.db, op, FreshId(w)));
        RetryAfterLanding(next, op, sel, o, attempt + 1);
      } else {
        InsertAtMostOnce(next, op, sel, o, attempt + 1);
      }
    }
  }

  /**
   For every budget and every mix of lost replies, failed sends and failed
   re-selects: the insert lands at most once, and a returned row is in the store.
   */
  lemma {:induction false} InsertAtMostOnce(w: World, op: Op, sel: Selector, o: Opts, attempt: nat)
    requires Quiet(w) && op.Insert() && Reader(sel) && Detects(sel, w.db, op) && 1 <= attempt <= Tries(w)
    requires Trusted(sel, Attempts(w, op, sel, o, attempt).w.log)
    ensures InsertResult(w, op, sel, o, Attempts(w, op, sel, o, attempt))
    decreases Tries(w) - attempt, 1
  {
    hide Commit, Reads, Met, Reselect, Exchange, Finds, Issue;
    if attempt == 1 {
      InsertIssued(w, op, sel, o, attempt);
    } else {
      var found := Reselect(w, sel);
      ReselectReads(w, sel);
      if sel.AttachedIp? { HonestPrefix(found.w.log, Attempts(w, op, sel, o, attempt).w.log); }
      if found.answer.Threw? {
        if attempt < Tries(w) { InsertAtMostOnce(Nap(found.w, attempt), op, sel, o, attempt + 1); }
      } else if found.answer.reply == Nothing {
        InsertIssued(found.w, op, sel, o, attempt);
      }
    }
  }

  // -- the attach endpoint, without any trust ------------------------------------------------

  /** A card is found by its name, and by its address if that is there: the landed one never goes unseen. */
  lemma EndpointCaught(db: Db, op: Op, addr: string, uuid: string)
    requires op.InsertEndpoint?
    ensures Detects(AttachEndpoint(addr, uuid, op.serverId, op.name), db, op)
  {
    var sel := AttachEndpoint(addr, uuid, op.serverId, op.name);
    forall id ensures Caught(sel, Commit(db, op, id)) {
      var row := Endpoint(id, op.serverId, op.name, op.mac, op.notes);
      assert row in Commit(db, op, id).endpoints && Named(op.serverId, op.name)(row);
    }
  }

  /** Under every tape, refused probes included, an attach inserts its endpoint at most once. */
  lemma EndpointAtMostOnce(w: World, op: Op, addr: string, uuid: string, o: Opts, attempt: nat)
    requires Quiet(w) && op.InsertEndpoint? && 1 <= attempt <= Tries(w)
    ensures
      var sel := AttachEndpoint(addr, uuid, op.serverId, op.name);
      InsertResult(w, op, sel, o, Attempts(w, op, sel, o, attempt))
  {
    hide Commit, Reads, Finds, Attempts, InsertResult;
    EndpointCaught(w.db, op, addr, uuid);
    InsertAtMostOnce(w, op, AttachEndpoint(addr, uuid, op.serverId, op.name), o, attempt);
  }
}
