/** Removing and re-inserting the server row: safe to cut off anywhere and to run again. */
module RecreateProofs {
  import opened Basics
  import opened Cmdb
  import opened Retry
  import opened RetryProofs
  import opened StoreFacts
  import opened Attachments
  import opened Tags
  import opened Create

  // -- what removal is for ---------------------------------------------------------------

  function NoneOf(h: Option<string>, u: Option<string>): Server -> bool { (s: Server) => !AnyServer(s, h, u) }
  function NotUnder(ids: set<Id>): Rail -> bool { (r: Rail) => r.serverId !in ids }

  /** The keys of the rows a removal is after. */
  function Targets(db: Db, h: Option<string>, u: Option<string>): set<Id> {
    set s | s in db.servers && AnyServer(s, h, u) :: s.id
  }

  /** The store without any server under this hostname or uuid, and without their rails. */
  function Cleared(db: Db, h: Option<string>, u: Option<string>): Db {
    db.(servers := Filter(db.servers, NoneOf(h, u)), rails := Filter(db.rails, NotUnder(Targets(db, h, u))))
  }

  // -- one request at a time ----------------------------------------------------------------

  lemma ClearedRail(db: Db, h: Option<string>, u: Option<string>, rail: Id)
    requires forall r :: r in db.rails && r.id == rail ==> r.serverId in Targets(db, h, u)
    ensures Cleared(db.(rails := Filter(db.rails, NotRail(rail))), h, u) == Cleared(db, h, u)
  {
    var d := Targets(db, h, u);
    var db' := db.(rails := Filter(db.rails, NotRail(rail)));
    assert Targets(db', h, u) == d;
    FilterWithin(db.rails, NotRail(rail), NotUnder(d));
  }

  lemma ClearedServer(db: Db, h: Option<string>, u: Option<string>, id: Id)
    requires forall s :: s in db.servers && s.id == id ==> AnyServer(s, h, u)
    requires forall r :: r in db.rails ==> r.serverId != id
    ensures Cleared(db.(servers := Filter(db.servers, NotServer(id))), h, u) == Cleared(db, h, u)
  {
    var db' := db.(servers := Filter(db.servers, NotServer(id)));
    FilterWithin(db.servers, NotServer(id), NoneOf(h, u));
    forall r | r in db.rails
      ensures NotUnder(Targets(db', h, u))(r) == NotUnder(Targets(db, h, u))(r)
    {
      if r.serverId in Targets(db, h, u) {
        var s :| s in db.servers && AnyServer(s, h, u) && s.id == r.serverId;
        assert s in db'.servers;
      }
    }
    FilterSame(db.rails, NotUnder(Targets(db', h, u)), NotUnder(Targets(db, h, u)));
  }

  lemma ClearedStays(db: Db, h: Option<string>, u: Option<string>)
    requires Targets(db, h, u) == {}
    ensures Cleared(db, h, u) == db
  {
    forall s | s in db.servers ensures NoneOf(h, u)(s) {
      assert AnyServer(s, h, u) ==> s.id in Targets(db, h, u);
    }
    FilterAll(db.servers, NoneOf(h, u));
    FilterAll(db.rails, NotUnder(Targets(db, h, u)));
  }

  // -- the loops -------------------------------------------------------------------------------

  /** What a found row says about the store: whose rails it lists, and that it is a target. */
  ghost predicate Describes(db: Db, h: Option<string>, u: Option<string>, x: Doomed) {
    && x.server in Targets(db, h, u)
    && (forall s :: s in db.servers && s.id == x.server ==> AnyServer(s, h, u))
    && (forall r :: r in db.rails && r.serverId == x.server ==> r.id in x.rails)
    && (forall r :: r in db.rails && r.id in x.rails ==> r.serverId == x.server)
  }

  /** Removal so far: cards and addresses untouched, rows only gone, and the goal the same. */
  ghost predicate Removing(w: World, w': World, h: Option<string>, u: Option<string>) {
    && Quiet(w') && w'.minted == w.minted && w'.errors == w.errors
    && w'.db.endpoints == w.db.endpoints && w'.db.ips == w.db.ips && w'.db.catalog == w.db.catalog
    && (forall s :: s in w'.db.servers ==> s in w.db.servers)
    && (forall r :: r in w'.db.rails ==> r in w.db.rails)
    && Cleared(w'.db, h, u) == Cleared(w.db, h, u)
    && (Keyed(w.db) ==> Keyed(w'.db))
  }

  lemma KeyedWithoutRail(db: Db, rail: Id)
    ensures Keyed(db) ==> Keyed(db.(rails := Filter(db.rails, NotRail(rail))))
  {
    if Keyed(db) { FilterKeyed(db.rails, NotRail(rail), (r: Rail) => r.id); }
  }

  lemma KeyedWithoutServer(db: Db, id: Id)
    ensures Keyed(db) ==> Keyed(db.(servers := Filter(db.servers, NotServer(id))))
  {
    if Keyed(db) { FilterKeyed(db.servers, NotServer(id), (s: Server) => s.id); }
  }

  lemma RailCall(w: World, rail: Id, h: Option<string>, u: Option<string>)
    requires Quiet(w) && forall r :: r in w.db.rails && r.id == rail ==> r.serverId in Targets(w.db, h, u)
    ensures
      var t := Call(w, DeleteRail(rail), NoSelector, RAISES_RAILS);
      && Removing(w, t.w, h, u) && t.w.db.servers == w.db.servers
      && (t.answer.Got? ==> t.w.db.rails == Filter(w.db.rails, NotRail(rail)))
  {
    hide Call, Cleared, Reads, AnyServer;
    WriteCall(w, DeleteRail(rail), RAISES_RAILS);
    ClearedRail(w.db, h, u, rail);
    KeyedWithoutRail(w.db, rail);
    hide Keyed, Targets;
  }

  lemma {:induction false} RailsRemoved(w: World, rails: seq<Id>, h: Option<string>, u: Option<string>)
    requires Quiet(w) && forall r :: r in w.db.rails && r.id in rails ==> r.serverId in Targets(w.db, h, u)
    ensures
      var s := RemoveRails(w, rails);
      && Removing(w, s.w, h, u) && s.w.db.servers == w.db.servers
      && (s.Fine? ==> forall r :: r in s.w.db.rails ==> r.id !in rails)
    decreases |rails|
  {
    hide Filter, Keyed, Call, Cleared, AnyServer;
    if rails != [] {
      RailCall(w, rails[0], h, u);
      var t := Call(w, DeleteRail(rails[0]), NoSelector, RAISES_RAILS);
      assert Targets(t.w.db, h, u) == Targets(w.db, h, u);
      if t.answer.Got? {
        RailsRemoved(t.w, rails[1..], h, u);
        assert rails == [rails[0]] + rails[1..];
      }
    }
  }

  lemma ServerCall(w: World, id: Id, h: Option<string>, u: Option<string>)
    requires Quiet(w)
    requires forall s :: s in w.db.servers && s.id == id ==> AnyServer(s, h, u)
    requires forall r :: r in w.db.rails ==> r.serverId != id
    ensures
      var t := Call(w, DeleteServer(id), NoSelector, RAISES_SERVER_DELETE);
      && Removing(w, t.w, h, u) && t.w.db.rails == w.db.rails
      && (t.w.db.servers == w.db.servers || t.w.db.servers == Filter(w.db.servers, NotServer(id)))
      && (t.answer.Got? ==> t.w.db.servers == Filter(w.db.servers, NotServer(id)))
  {
    hide Call, Cleared, Reads, Targets;
    WriteCall(w, DeleteServer(id), RAISES_SERVER_DELETE);
    ClearedServer(w.db, h, u, id);
    KeyedWithoutServer(w.db, id);
    hide Keyed, AnyServer;
  }

  lemma RemovingTrans(a: World, b: World, c: World, h: Option<string>, u: Option<string>)
    requires Removing(a, b, h, u) && Removing(b, c, h, u)
    ensures Removing(a, c, h, u)
  {
    hide Cleared;
  }

  lemma OneRemoved(w: World, x: Doomed, h: Option<string>, u: Option<string>)
    requires Quiet(w) && Describes(w.db, h, u, x)
    ensures
      var s := RemoveOne(w, x);
      && Removing(w, s.w, h, u)
      && (forall r :: r in w.db.servers && r.id != x.server ==> r in s.w.db.servers)
      && (s.Fine? ==> forall r :: r in s.w.db.servers ==> r.id != x.server)
  {
    RailsRemoved(w, x.rails, h, u);
    var rails := RemoveRails(w, x.rails);
    hide Call, Cleared, RemoveRails, AnyServer;
    if rails.Fine? {
      ServerCall(rails.w, x.server, h, u);
      RemovingTrans(w, rails.w, RemoveOne(w, x).w, h, u);
    }
  }

  ghost predicate AllDescribed(db: Db, h: Option<string>, u: Option<string>, found: seq<Doomed>) {
    && (forall i :: 0 <= i < |found| ==> Describes(db, h, u, found[i]))
    && (forall i, j :: 0 <= i < j < |found| ==> found[i].server != found[j].server)
  }

  /** Describing survives the removal of another row. */
  lemma StillDescribed(db: Db, db': Db, h: Option<string>, u: Option<string>, x: Doomed, gone: Id)
    requires Describes(db, h, u, x) && x.server != gone
    requires forall s :: s in db'.servers ==> s in db.servers
    requires forall r :: r in db'.rails ==> r in db.rails
    requires forall s :: s in db.servers && s.id != gone ==> s in db'.servers
    ensures Describes(db', h, u, x)
  {
    var s :| s in db.servers && AnyServer(s, h, u) && s.id == x.server;
    assert s in db'.servers;
  }

  lemma FoundAllGone(w: World, s: Stage<()>, found: seq<Doomed>)
    requires found != [] && (forall r :: r in s.w.db.servers ==> r in w.db.servers)
    requires forall r :: r in w.db.servers ==> r.id != found[0].server
    requires s.Fine? ==> forall r, x :: r in s.w.db.servers && x in found[1..] ==> r.id != x.server
    ensures s.Fine? ==> forall r, x :: r in s.w.db.servers && x in found ==> r.id != x.server
  {
    assert found == [found[0]] + found[1..];
  }

  lemma {:induction false} AllRemoved(w: World, found: seq<Doomed>, h: Option<string>, u: Option<string>)
    requires Quiet(w) && AllDescribed(w.db, h, u, found)
    ensures
      var s := RemoveAll(w, found);
      && Removing(w, s.w, h, u)
      && (s.Fine? ==> forall r, x :: r in s.w.db.servers && x in found ==> r.id != x.server)
    decreases |found|
  {
    if found != [] {
      OneRemoved(w, found[0], h, u);
      var one := RemoveOne(w, found[0]);
      if one.Fine? {
        forall i | 0 <= i < |found[1..]| ensures Describes(one.w.db, h, u, found[1..][i]) {
          StillDescribed(w.db, one.w.db, h, u, found[i + 1], found[0].server);
        }
        hide Cleared, RemoveOne, Describes, AnyServer;
        AllRemoved(one.w, found[1..], h, u);
        hide Removing, Targets;
        RemovingTrans(w, one.w, RemoveAll(w, found).w, h, u);
        FoundAllGone(one.w, RemoveAll(one.w, found[1..]), found);
      }
    }
  }

  lemma TargetFound(db: Db, h: Option<string>, u: Option<string>, id: Id)
    requires id in Targets(db, h, u)
    ensures exists x :: x in Map(Filter(db.servers, MatchingAny(h, u)), DoomedRow(db)) && x.server == id
  {
    var rows := Filter(db.servers, MatchingAny(h, u));
    var s :| s in db.servers && AnyServer(s, h, u) && s.id == id;
    assert s in rows;
    var i :| 0 <= i < |rows| && rows[i] == s;
    var x := Map(rows, DoomedRow(db))[i];
    assert x.server == id;
  }

  /** The select that starts a removal describes every target. */
  lemma FoundDescribes(db: Db, h: Option<string>, u: Option<string>)
    requires Keyed(db)
    ensures
      var found := Map(Filter(db.servers, MatchingAny(h, u)), DoomedRow(db));
      && AllDescribed(db, h, u, found)
      && forall id :: id in Targets(db, h, u) ==> exists x :: x in found && x.server == id
  {
    hide Describes, AnyServer, Keyed, Filter, Targets;
    FoundRows(db, h, u);
    forall id | id in Targets(db, h, u)
      ensures exists x :: x in Map(Filter(db.servers, MatchingAny(h, u)), DoomedRow(db)) && x.server == id
    {
      TargetFound(db, h, u, id);
    }
  }

  lemma FoundRow(db: Db, h: Option<string>, u: Option<string>, i: nat)
    requires Keyed(db) && i < |Filter(db.servers, MatchingAny(h, u))|
    ensures
      var rows := Filter(db.servers, MatchingAny(h, u));
      var found := Map(rows, DoomedRow(db));
      Describes(db, h, u, found[i]) && found[i].server == rows[i].id
  {
    var rows := Filter(db.servers, MatchingAny(h, u));
    assert rows[i] in rows;
    hide Describes, Keyed, Filter;
    RowDescribed(db, h, u, rows[i]);
  }

  /** Each found row is described, and no two are the same server. */
  lemma FoundRows(db: Db, h: Option<string>, u: Option<string>)
    requires Keyed(db)
    ensures AllDescribed(db, h, u, Map(Filter(db.servers, MatchingAny(h, u)), DoomedRow(db)))
  {
    var rows := Filter(db.servers, MatchingAny(h, u));
    var found := Map(rows, DoomedRow(db));
    FilterKeyed(db.servers, MatchingAny(h, u), (s: Server) => s.id);
    hide Describes, AnyServer, Keyed, Filter, Map, DoomedRow, MatchingAny;
    forall i | 0 <= i < |found| ensures Describes(db, h, u, found[i]) && found[i].server == rows[i].id { FoundRow(db, h, u, i); }
  }

  lemma RowDescribed(db: Db, h: Option<string>, u: Option<string>, s: Server)
    requires Keyed(db) && s in db.servers && AnyServer(s, h, u)
    ensures Describes(db, h, u, DoomedRow(db)(s))
  {
    var x := DoomedRow(db)(s);
    var mine := Filter(db.rails, RailOf(s.id));
    forall t | t in db.servers && t.id == s.id ensures t == s {
      var i :| 0 <= i < |db.servers| && db.servers[i] == t;
      var j :| 0 <= j < |db.servers| && db.servers[j] == s;
    }
    forall r | r in db.rails && r.serverId == s.id ensures r.id in x.rails {
      assert r in mine;
      var i :| 0 <= i < |mine| && mine[i] == r;
      assert x.rails[i] == r.id;
    }
    forall r | r in db.rails && r.id in x.rails ensures r.serverId == s.id {
      var i :| 0 <= i < |x.rails| && x.rails[i] == r.id;
      assert mine[i] in mine && mine[i].id == r.id;
      var j :| 0 <= j < |db.rails| && db.rails[j] == r;
      var k :| 0 <= k < |db.rails| && db.rails[k] == mine[i];
    }
  }

  /**
   A removal that is cut off anywhere leaves a store from which removing ends in
   the same place; one that completes is there.
   */
  lemma ServerRemoved(w: World, uuid: string, hostname: string)
    requires Quiet(w) && Keyed(w.db)
    ensures
      var s := RemoveServer(w, uuid, hostname);
      var h, u := NonEmpty(hostname), NonEmpty(uuid);
      && Removing(w, s.w, h, u)
      && (s.Fine? ==> s.w.db == Cleared(w.db, h, u))
  {
    hide Cleared, Call, RemoveAll, AllDescribed, AnyServer;
    var h, u := NonEmpty(hostname), NonEmpty(uuid);
    var op := SelectServers(h, u);
    var t := Call(w, op, NoSelector, RAISES_SELECT);
    ReadCall(w, op, RAISES_SELECT);
    FoundDescribes(w.db, h, u);
    if t.answer.Got? {
      AllRemoved(t.w, t.answer.reply.found, h, u);
      var s := RemoveAll(t.w, t.answer.reply.found);
      if s.Fine? {
        assert forall r :: r in s.w.db.servers && AnyServer(r, h, u) ==> r.id in Targets(w.db, h, u);
        ClearedStays(s.w.db, h, u);
      }
    }
  }

  // -- re-inserting the row --------------------------------------------------------------------------

  function Inserted(db: Db, ctx: Context, id: Id): Db {
    db.(servers := db.servers + [Server(id, NewServer(ctx))])
  }

  /** With no row of this hostname left, the insert's selector finds only the new row. */
  lemma RowDetected(db: Db, ctx: Context, id: Id)
    requires forall s :: s in db.servers ==> !Is(s, "hostname", ctx.hostname)
    ensures
      var op, sel := InsertServer(NewServer(ctx)), Once(SelectServerByHostname(ctx.hostname));
      && Detects(sel, db, op) && Finds(sel, db) == Nothing
      && Commit(db, op, id) == Inserted(db, ctx, id)
      && Finds(sel, Inserted(db, ctx, id)) == ServerRef(id)
  {
    var op, sel := InsertServer(NewServer(ctx)), Once(SelectServerByHostname(ctx.hostname));
    var h := Some(ctx.hostname);
    forall k ensures Finds(sel, Commit(db, op, k)) == ServerRef(k) {
      var row := Server(k, NewServer(ctx));
      var db' := Commit(db, op, k);
      FilterNone(db.servers, Matching(h, None));
      FilterSnoc(db.servers, row, Matching(h, None));
      assert Matching(h, None)(row);
      FirstIsFilterHead(db'.servers, Matching(h, None));
    }
    assert First(db.servers, Matching(h, None)).None?;
  }

  lemma OnlyTarget(rest: seq<Server>, row: Server, db: Db, h: Option<string>, u: Option<string>)
    requires db.servers == rest + [row] && AnyServer(row, h, u) && forall s :: s in rest ==> !AnyServer(s, h, u)
    ensures Targets(db, h, u) == {row.id}
  {
    forall k | k in Targets(db, h, u) ensures k == row.id {
      var s :| s in db.servers && AnyServer(s, h, u) && s.id == k;
      assert s == row || s in rest;
    }
    assert row in db.servers;
  }

  /** Clearing again removes exactly the row that was inserted. */
  lemma ClearedInserted(db: Db, ctx: Context, session: nat, minted: nat)
    requires Unborn(db, session, minted) && ctx.hostname != ""
    ensures
      var h, u := NonEmpty(ctx.hostname), NonEmpty(ctx.uuid);
      var cleared := Cleared(db, h, u);
      Cleared(Inserted(cleared, ctx, Id(session, minted)), h, u) == cleared
  {
    var h, u := NonEmpty(ctx.hostname), NonEmpty(ctx.uuid);
    var cleared := Cleared(db, h, u);
    var id := Id(session, minted);
    var row := Server(id, NewServer(ctx));
    var db' := Inserted(cleared, ctx, id);
    assert AnyServer(row, h, u);
    FilterSnoc(cleared.servers, row, NoneOf(h, u));
    FilterAll(cleared.servers, NoneOf(h, u));
    OnlyTarget(cleared.servers, row, db', h, u);
    assert forall r :: r in cleared.rails ==> r in db.rails && r.serverId != id;
    FilterAll(cleared.rails, NotUnder(Targets(db', h, u)));
    hide AnyServer, Filter, Targets, NewServer;
  }

  /** What re-creating the row can end in. */
  ghost predicate Recreating(w: World, ctx: Context, s: Stage<Id>) {
    var h, u := NonEmpty(ctx.hostname), NonEmpty(ctx.uuid);
    var id := FreshId(w);
    var done := Inserted(Cleared(w.db, h, u), ctx, id);
    && Quiet(s.w) && s.w.errors == w.errors
    && (Removing(w, s.w, h, u) || (s.w.db == done && s.w.minted == w.minted + 1))
    && (s.Fine? ==> s.w.db == done && s.w.minted == w.minted + 1 && s.value == id)
    && (s.Broken? && s.exn == CmdbAbort ==> Removing(w, s.w, h, u))
  }

  lemma ClearedHasNone(db: Db, h: Option<string>, u: Option<string>)
    ensures forall s :: s in Cleared(db, h, u).servers ==> !AnyServer(s, h, u)
  {
  }

  /** The oldest row of this hostname that a removal leaves: one whose hostname is not looked for. */
  function Overlooked(db: Db, ctx: Context): Option<Server> {
    First(Cleared(db, NonEmpty(ctx.hostname), NonEmpty(ctx.uuid)).servers, Matching(Some(ctx.hostname), None))
  }

  /** A hostname that is not empty is looked for. */
  lemma NoneOverlooked(db: Db, ctx: Context)
    requires ctx.hostname != ""
    ensures Overlooked(db, ctx).None?
  {
    ClearedHasNone(db, NonEmpty(ctx.hostname), NonEmpty(ctx.uuid));
    hide Cleared;
  }

  /** The row a re-select by hostname finds, and whether the insert's own row is the first such. */
  lemma OldestRow(db: Db, ctx: Context, id: Id)
    ensures
      var oldest := First(db.servers, Matching(Some(ctx.hostname), None));
      var sel := Once(SelectServerByHostname(ctx.hostname));
      && Finds(sel, db) == (if oldest.Some? then ServerRef(oldest.value.id) else Nothing)
      && Finds(sel, Inserted(db, ctx, id)) == ServerRef(if oldest.Some? then oldest.value.id else id)
  {
    var row, p := Server(id, NewServer(ctx)), Matching(Some(ctx.hostname), None);
    assert p(row);
    FilterSnoc(db.servers, row, p);
    FirstIsFilterHead(db.servers, p);
    FirstIsFilterHead(db.servers + [row], p);
    hide Filter, First, NewServer;
  }

  /** With one attempt nothing is selected again: a row that came back is the new one. */
  lemma OneTryRow(w: World, ctx: Context)
    requires Quiet(w) && Tries(w) == 1
    ensures
      var t := Call(w, InsertServer(NewServer(ctx)), Once(SelectServerByHostname(ctx.hostname)), RAISES_SERVER_INSERT);
      t.answer.Got? ==> t.w.db == Inserted(w.db, ctx, FreshId(w)) && t.w.minted == w.minted + 1 && t.answer.reply == ServerRef(FreshId(w))
  {
    var op, sel := InsertServer(NewServer(ctx)), Once(SelectServerByHostname(ctx.hostname));
    hide NewServer;
    assert Attempts(w, op, sel, RAISES_SERVER_INSERT, 1) == Issue(w, op, sel, RAISES_SERVER_INSERT, 1);
    InsertExchange(w, op);
  }

  /** What inserting the row can end in, over whatever is left: the new row, or the oldest one of its hostname. */
  ghost predicate RowInsert(w: World, ctx: Context, t: Turn) {
    var id, oldest := FreshId(w), First(w.db.servers, Matching(Some(ctx.hostname), None));
    var done := Inserted(w.db, ctx, id);
    && Quiet(t.w) && t.w.errors == w.errors
    && ((t.w.db == w.db && t.w.minted == w.minted) || (t.w.db == done && t.w.minted == w.minted + 1))
    && (t.answer.Got? ==>
          || (t.w.db == done && t.w.minted == w.minted + 1 && t.answer.reply == ServerRef(id))
          || (Tries(w) >= 2 && oldest.Some? && t.answer.reply == ServerRef(oldest.value.id)))
    && (t.answer == Threw(CmdbAbort) ==> t.w.db == w.db && t.w.minted == w.minted)
  }

  lemma RowInserted(w: World, ctx: Context)
    requires Quiet(w)
    ensures RowInsert(w, ctx, Call(w, InsertServer(NewServer(ctx)), Once(SelectServerByHostname(ctx.hostname)), RAISES_SERVER_INSERT))
  {
    hide First, Finds;
    var op, sel := InsertServer(NewServer(ctx)), Once(SelectServerByHostname(ctx.hostname));
    assert Commit(w.db, op, FreshId(w)) == Inserted(w.db, ctx, FreshId(w));
    hide Call, Commit, Reads, Finds, Inserted, Detects, NewServer, First;
    InsertDetected(w.db, ctx);
    InsertReads(w.db, op, FreshId(w));
    OldestRow(w.db, ctx, FreshId(w));
    InsertCall(w, op, sel, RAISES_SERVER_INSERT);
    if Tries(w) == 1 { OneTryRow(w, ctx); }
  }

  /** What re-creating the row can end in, whatever the hostname: its own row, or the overlooked one. */
  ghost predicate RecreatingAny(w: World, ctx: Context, s: Stage<Id>) {
    var h, u := NonEmpty(ctx.hostname), NonEmpty(ctx.uuid);
    var id, left := FreshId(w), Cleared(w.db, NonEmpty(ctx.hostname), NonEmpty(ctx.uuid));
    var done := Inserted(left, ctx, id);
    && Quiet(s.w) && s.w.errors == w.errors
    && (Removing(w, s.w, h, u) || (s.w.db == done && s.w.minted == w.minted + 1))
    && (s.Fine? ==>
          || (s.w.db == done && s.w.minted == w.minted + 1 && s.value == id)
          || (&& Tries(w) >= 2 && Overlooked(w.db, ctx).Some? && s.value == Overlooked(w.db, ctx).value.id
              && ((s.w.db == left && s.w.minted == w.minted) || (s.w.db == done && s.w.minted == w.minted + 1))))
    && (s.Broken? && s.exn == CmdbAbort ==> Removing(w, s.w, h, u))
  }

  lemma RowRecreatedAny(w: World, ctx: Context)
    requires Quiet(w) && Keyed(w.db)
    ensures RecreatingAny(w, ctx, Recreate(w, ctx))
  {
    hide Call, Cleared, RemoveServer, Inserted, Keyed, NewServer, First;
    ServerRemoved(w, ctx.uuid, ctx.hostname);
    var removed := RemoveServer(w, ctx.uuid, ctx.hostname);
    if removed.Fine? { RowInserted(removed.w, ctx); }
  }

  /**
   Recreate: whatever the faults, the old rows go at most once and the new row comes at most
   once; when it returns a key, the new row is the only one left. For an empty hostname this
   takes a single attempt, or that no row with an empty hostname is left.
   */
  lemma RowRecreated(w: World, ctx: Context)
    requires Quiet(w) && Keyed(w.db) && (ctx.hostname != "" || Tries(w) == 1 || Overlooked(w.db, ctx).None?)
    ensures Recreating(w, ctx, Recreate(w, ctx))
  {
    hide Recreate, Cleared, Inserted, Removing, Overlooked;
    RowRecreatedAny(w, ctx);
    if ctx.hostname != "" { NoneOverlooked(w.db, ctx); }
  }

  lemma InsertReads(db: Db, op: Op, id: Id)
    requires op.InsertServer?
    ensures Reads(db, op, id) == ServerRef(id)
  {
  }

  /** After a removal or a re-insertion cut off anywhere, re-creating still ends in the same rows. */
  lemma RecreateResumes(w: World, ctx: Context)
    requires Quiet(w) && Sound(w) && ctx.hostname != ""
    ensures
      var h, u := NonEmpty(ctx.hostname), NonEmpty(ctx.uuid);
      var after := Cleared(Recreate(w, ctx).w.db, h, u);
      after.servers == Cleared(w.db, h, u).servers && after.rails == Cleared(w.db, h, u).rails
  {
    RowRecreated(w, ctx);
    ClearedInserted(w.db, ctx, w.session, w.minted);
    hide Recreate, Cleared;
  }

  // -- an empty hostname or uuid is not looked for ---------------------------------------------------

  /** The row carries this hostname or this uuid, empty or not. */
  predicate Carries(s: Server, ctx: Context) { Is(s, "hostname", ctx.hostname) || Is(s, "uuid", ctx.uuid) }

  /** One row carries this hostname or uuid: this one, and it carries both. */
  ghost predicate Sole(db: Db, ctx: Context, id: Id) {
    && (exists s :: s in db.servers && s.id == id && Carries(s, ctx))
    && forall s :: s in db.servers && Carries(s, ctx) ==> s.id == id && Is(s, "hostname", ctx.hostname) && Is(s, "uuid", ctx.uuid)
  }

  /** Every row with this hostname or uuid is one the removal looks for. */
  ghost predicate AllSought(db: Db, ctx: Context) {
    forall s :: s in db.servers && Carries(s, ctx) ==> AnyServer(s, NonEmpty(ctx.hostname), NonEmpty(ctx.uuid))
  }

  lemma InsertDetected(db: Db, ctx: Context)
    ensures Detects(Once(SelectServerByHostname(ctx.hostname)), db, InsertServer(NewServer(ctx)))
  {
    var op := InsertServer(NewServer(ctx));
    forall id ensures Finds(Once(SelectServerByHostname(ctx.hostname)), Commit(db, op, id)) != Nothing {
      var row := Server(id, NewServer(ctx));
      assert row in Commit(db, op, id).servers && Matching(Some(ctx.hostname), None)(row);
    }
  }

  /** Inserting the row over whatever is left: at most one row is added. */
  lemma InsertedOver(w: World, ctx: Context)
    requires Quiet(w)
    ensures
      var t := Call(w, InsertServer(NewServer(ctx)), Once(SelectServerByHostname(ctx.hostname)), RAISES_SERVER_INSERT);
      var done := Inserted(w.db, ctx, FreshId(w));
      && (t.w.db == w.db || t.w.db == done)
      && (t.answer.Got? && (forall x :: x in w.db.servers ==> !Is(x, "hostname", ctx.hostname)) ==>
            t.w.db == done && t.answer.reply == ServerRef(FreshId(w)))
  {
    hide Reads, Finds;
    var op, sel := InsertServer(NewServer(ctx)), Once(SelectServerByHostname(ctx.hostname));
    InsertDetected(w.db, ctx);
    assert Commit(w.db, op, FreshId(w)) == Inserted(w.db, ctx, FreshId(w));
    InsertReads(w.db, op, FreshId(w));
    if forall x :: x in w.db.servers ==> !Is(x, "hostname", ctx.hostname) { RowDetected(w.db, ctx, FreshId(w)); }
    hide Call, Commit, Reads, Finds, Inserted, Detects, Is;
    InsertCall(w, op, sel, RAISES_SERVER_INSERT);
  }

  /** What the store holds once the row is re-created: what removal leaves, and at most the new row. */
  lemma RecreatedOver(w: World, ctx: Context)
    requires Quiet(w) && Keyed(w.db) && Recreate(w, ctx).Fine?
    ensures
      var s := Recreate(w, ctx);
      var left := Cleared(w.db, NonEmpty(ctx.hostname), NonEmpty(ctx.uuid));
      && (s.w.db == left || s.w.db == Inserted(left, ctx, FreshId(w)))
      && ((forall x :: x in left.servers ==> !Is(x, "hostname", ctx.hostname)) ==>
            s.w.db == Inserted(left, ctx, FreshId(w)) && s.value == FreshId(w))
  {
    ServerRemoved(w, ctx.uuid, ctx.hostname);
    hide Call, Cleared, RemoveServer, Inserted, Is;
    InsertedOver(RemoveServer(w, ctx.uuid, ctx.hostname).w, ctx);
  }

  /**
   Exactly when the re-created row is the only one of its hostname or uuid: unless
   both are empty, when no row carries one of them merely because it is empty.
   */
  lemma SoleExactly(w: World, ctx: Context)
    requires Quiet(w) && Keyed(w.db) && (ctx.hostname != "" || ctx.uuid != "") && Recreate(w, ctx).Fine?
    ensures Sole(Recreate(w, ctx).w.db, ctx, Recreate(w, ctx).value) <==> AllSought(w.db, ctx)
  {
    hide Recreate;
    var s := Recreate(w, ctx);
    var h, u := NonEmpty(ctx.hostname), NonEmpty(ctx.uuid);
    var left := Cleared(w.db, h, u);
    RecreatedOver(w, ctx);
    if AllSought(w.db, ctx) {
      assert forall x :: x in left.servers ==> !Carries(x, ctx);
      assert Server(FreshId(w), NewServer(ctx)) in s.w.db.servers;
    } else {
      var x :| x in w.db.servers && Carries(x, ctx) && !AnyServer(x, h, u);
      assert x in left.servers && x in s.w.db.servers;
    }
  }

  /**
   Why a create needs a hostname that was looked for: if a row of this hostname was left
   behind, an insert that never arrives hands back that row, another server's, as the new one.
   */
  lemma ForeignRowHandedBack(w: World, ctx: Context, s: Server)
    requires Quiet(w) && w.budget >= 2 && First(w.db.servers, Matching(Some(ctx.hostname), None)) == Some(s)
    requires |w.tape| >= 2 && w.tape[0] == NotSent && w.tape[1] == Replies
    ensures
      var t := Call(w, InsertServer(NewServer(ctx)), Once(SelectServerByHostname(ctx.hostname)), RAISES_SERVER_INSERT);
      t.answer == Got(ServerRef(s.id)) && t.w.db == w.db
  {
    var op, sel, o := InsertServer(NewServer(ctx)), Once(SelectServerByHostname(ctx.hostname)), RAISES_SERVER_INSERT;
    var sent := Exchange(w, op);
    assert sent.answer == Threw(Transport) && sent.w.db == w.db && Quiet(sent.w) && sent.w.tape == w.tape[1..];
    var w1 := Nap(sent.w, 1);
    var found := Exchange(w1, sel.query);
    assert found.answer == Got(ServerRef(s.id)) && found.w.db == w.db;
    hide Exchange, Commit, Reads;
    assert Attempts(w, op, sel, o, 1) == Issue(w, op, sel, o, 1);
    assert Issue(w, op, sel, o, 1) == Attempts(w1, op, sel, o, 2);
    assert Reselect(w1, sel) == found;
    assert Attempts(w1, op, sel, o, 2) == found;
  }
}
