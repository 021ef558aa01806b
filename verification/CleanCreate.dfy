/** A create that finishes and reports nothing: the same live rows as a single fault-free run, up to keys. */
module CleanCreate {
  import opened Basics
  import opened Cmdb
  import opened Planning
  import opened Retry
  import opened RetryProofs
  import opened StoreFacts
  import opened Attachments
  import opened AttachConverges
  import opened Tags
  import opened TagsProofs
  import opened Create
  import opened RecreateProofs
  import opened FieldProofs
  import opened Invariants
  import opened NetProofs
  import opened CreateProofs
  import opened CreateConverges
  import opened LiveProofs

  /** Each card names an address once, and a placeholder's mac is on no card before it. */
  ghost predicate DistinctCards(cards: seq<Card>) {
    && DistinctWithin(cards)
    && forall i, j :: 0 <= j < i < |cards| && cards[i].placeholder ==> cards[j].mac != cards[i].mac
  }

  /** No re-select can hand back a row of another card or address: there is one attempt, or the cards are distinct. */
  ghost predicate Unmistakable(w: World, cards: seq<Card>) { Tries(w) == 1 || DistinctCards(cards) }

  /** The columns a message gives its server. */
  function FinalCols(ctx: Context, refs: set<string>): Cols {
    NewServer(ctx) + Merge(CreateWrites(ctx, refs)) + map["state" := Text(ctx.readyState)]
  }

  function Planned(db: Db, ctx: Context, m: CreateMsg): seq<CardRow> {
    PlanCards(PrefixesOf(db, ctx.dcName), Cards(m), BondTaken(Cards(m)), {})
  }

  lemma CardsClean(w: World, ctx: Context, server: Id, m: CreateMsg)
    requires Quiet(w) && Sound(w) && Born(server, w.session, w.minted) && NoCards(w.db, server)
    requires Unmistakable(w, Cards(m))
    ensures
      var s := Persist(w, ctx, server, Cards(m));
      && w.errors <= s.w.errors
      && (s.Fine? && s.w.errors == w.errors ==> Live(s.w.db, server) == Planned(w.db, ctx, m))
  {
    hide Sound, NamesUnique, KindsUnique, PersistCards, NamesAhead, EndpointNames, BondTaken, Cards, UsedKnown, NamedWithin, PlanCards, DistinctWithin, PrefixesOf;
    var cards := Cards(m);
    BareServer(w.db, server);
    PlannedNames(m);
    CardsErrors(w, ctx.dcName, server, cards, BondTaken(cards), {});
    CardsPlanned(w, ctx.dcName, server, cards, BondTaken(cards), {}, []);
    NothingLive(w.db, server);
  }

  lemma NothingLive(db: Db, server: Id)
    requires NoCards(db, server)
    ensures Live(db, server) == []
  {
    FilterNone(db.endpoints, OnServer(server));
  }

  lemma SameLive(db: Db, db': Db, server: Id)
    requires db'.endpoints == db.endpoints && db'.ips == db.ips
    ensures Live(db', server) == Live(db, server)
  {
    hide Filter, Map;
    MapEqual(Filter(db.endpoints, OnServer(server)), RowView(db), RowView(db'));
  }

  lemma StateClean(w: World, kept: seq<Server>, id: Id, cols: Cols, ctx: Context)
    requires Quiet(w) && RowOf(w.db, kept, id, cols, ctx) && w.errors == []
    ensures
      var t := UpdateRow(w, ctx, FinalState(ctx, w.errors), RECORDS_STATE);
      && SameCards(w.db, t.w.db)
      && (t.answer.Got? && t.w.errors == w.errors ==>
            RowOf(t.w.db, kept, id, cols + map["state" := Text(ctx.readyState)], ctx))
  {
    assert !Failed([]);
    UpdateRowCall(w, kept, id, cols, ctx, FinalState(ctx, w.errors), RECORDS_STATE);
    hide UpdateRow, RowOf, SameCards;
  }

  lemma FieldsReport(w: World, ctx: Context)
    ensures w.errors <= WriteFields(w, ctx).w.errors
  {
    var writes := CreateWrites(ctx, w.db.catalog.refs);
    var batch := Merge(writes);
    hide CreateWrites, Merge, Attempts;
    CallReports(w, UpdateServers(Some(ctx.hostname), Some(ctx.uuid), batch), NoSelector, Opts("batch", false, None));
    var t := UpdateRow(w, ctx, batch, Opts("batch", false, None));
    ReplayErrors(t.w, ctx, writes);
    hide Call, ReplayWrites;
  }

  lemma FillClean(w: World, kept: seq<Server>, id: Id, cols: Cols, ctx: Context, m: CreateMsg)
    requires Quiet(w) && Sound(w) && RowOf(w.db, kept, id, cols, ctx) && SafeTags(ctx, w.db.catalog)
    requires Born(id, w.session, w.minted) && NoCards(w.db, id) && w.errors == []
    ensures
      var o := Fill(w, ctx, id, Cards(m));
      o.status.Returned? && o.w.errors == [] ==>
        && RowOf(o.w.db, kept, id, cols + Merge(CreateWrites(ctx, w.db.catalog.refs)) + map["state" := Text(ctx.readyState)], ctx)
        && (Unmistakable(w, Cards(m)) ==> Live(o.w.db, id) == Planned(w.db, ctx, m))
  {
    hide Sound, NamesUnique, KindsUnique, RowOf, FieldsWritten, WriteFields, CreateWrites, Merge, Cards, DistinctCards, Planned, Live, Failed, NoCards, Persist, UpdateRow, FinalState;
    var o := Fill(w, ctx, id, Cards(m));
    var fields := WriteFields(w, ctx);
    var cols' := FieldsPart(w, kept, id, cols, ctx);
    FieldsKeep(w, fields, kept, id, cols', ctx);
    FieldsClean(w, kept, id, cols, ctx);
    FieldsReport(w, ctx);
    if o.status.Returned? && o.w.errors == [] {
      var net := Persist(fields.w, ctx, id, Cards(m));
      CardsErrors(fields.w, ctx.dcName, id, Cards(m), BondTaken(Cards(m)), {});
      if Unmistakable(w, Cards(m)) { CardsClean(fields.w, ctx, id, m); }
      CardsPart(fields.w, ctx, id, m);
      FinalReports(net.w, ctx);
      assert net.w.errors == [] && fields.w.errors == [];
      var now := cols + Merge(CreateWrites(ctx, w.db.catalog.refs));
      SameRow(fields.w.db, net.w.db, kept, id, now, ctx);
      StateClean(net.w, kept, id, now, ctx);
      SameLive(net.w.db, o.w.db, id);
      SamePlan(w.db, fields.w.db, ctx, m);
    }
  }

  lemma FinalReports(w: World, ctx: Context)
    ensures w.errors <= UpdateRow(w, ctx, FinalState(ctx, w.errors), RECORDS_STATE).w.errors
  {
    CallReports(w, UpdateServers(Some(ctx.hostname), Some(ctx.uuid), FinalState(ctx, w.errors)), NoSelector, RECORDS_STATE);
  }

  lemma SamePlan(a: Db, b: Db, ctx: Context, m: CreateMsg)
    requires a.catalog == b.catalog
    ensures Planned(a, ctx, m) == Planned(b, ctx, m)
  {
  }

  /** The row a clean finish leaves: one server over the base store, with its final columns. */
  ghost predicate FinishedRow(start: Db, db: Db, ctx: Context, id: Id) {
    && db.servers == Base(start, ctx).servers + [Server(id, FinalCols(ctx, start.catalog.refs))]
    && db.rails == Base(start, ctx).rails
  }

  /** The rows a clean finish leaves: the server row and its cards. */
  ghost predicate Finished(start: Db, db: Db, ctx: Context, m: CreateMsg, id: Id) {
    FinishedRow(start, db, ctx, id) && Live(db, id) == Planned(start, ctx, m)
  }

  ghost predicate Clean(w: World, m: CreateMsg) {
    GotPast(w, m) && CreateServer(w, m).status.Returned? && CreateServer(w, m).w.errors == []
  }

  lemma RowIs(db: Db, kept: seq<Server>, id: Id, cols: Cols, ctx: Context)
    requires RowOf(db, kept, id, cols, ctx)
    ensures db.servers == kept + [Server(id, cols)]
  {
  }

  lemma RewrittenRails(w: World, o: Outcome, ctx: Context, cols: Cols, cards: seq<Card>)
    requires Rewritten(w, o, ctx, cols, cards)
    ensures o.w.db.rails == Base(w.db, ctx).rails
  {
  }

  /** One attempt that finishes and reports nothing, with its cards where no re-select can mistake them. */
  lemma CreateRow(w: World, m: CreateMsg)
    requires Quiet(w) && Sound(w) && Usable(m) && SafeTags(Ctx(w, m), w.db.catalog) && Clean(w, m)
    ensures FinishedRow(w.db, CreateServer(w, m).w.db, Ctx(w, m), FreshId(w))
    ensures Unmistakable(w, Cards(m)) ==> Live(CreateServer(w, m).w.db, FreshId(w)) == Planned(w.db, Ctx(w, m), m)
  {
    hide BuildContext, ContextOf, NamesUnique, KindsUnique, Sound, Recreate, Fill, Resumable, Stopped, SafeTags, DistinctCards, Cards, CreateWrites, Merge, NewServer, Planned, Live, RowOf, Base, Rewritten;
    var ctx := Ctx(w, m);
    var c := BuildContext(w.(errors := []), m);
    var cols := CreateOnce(w, m);
    CtxHostname(w, m);
    ContextBuilt(w.(errors := []), m);
    RewrittenRails(w, CreateServer(w, m), ctx, cols, Cards(m));
    var row := Recreate(c.w, ctx);
    RowRecreated(c.w, ctx) by { SoundSame(w, c.w); }
    RecreatedRow(w, c.w, row, ctx);
    RowReady(w, row.w, ctx);
    FillReports(row.w, ctx, FreshId(w), Cards(m));
    assert Unmistakable(row.w, Cards(m)) == Unmistakable(w, Cards(m));
    FillClean(row.w, Base(w.db, ctx).servers, FreshId(w), NewServer(ctx), ctx, m);
    RowIs(CreateServer(w, m).w.db, Base(w.db, ctx).servers, FreshId(w), FinalCols(ctx, w.db.catalog.refs), ctx);
    SamePlan(w.db, row.w.db, ctx, m);
  }

  /** One attempt that finishes and reports nothing. */
  lemma CreateClean(w: World, m: CreateMsg)
    requires Quiet(w) && Sound(w) && Usable(m) && SafeTags(Ctx(w, m), w.db.catalog)
    requires Unmistakable(w, Cards(m)) && Clean(w, m)
    ensures Finished(w.db, CreateServer(w, m).w.db, Ctx(w, m), m, FreshId(w))
  {
    hide FinishedRow, Live, Planned, CreateServer, Clean, SafeTags, Unmistakable, Sound;
    CreateRow(w, m);
  }

  lemma RecreatedRow(w: World, w1: World, row: Stage<Id>, ctx: Context)
    requires w1.db == w.db && w1.minted == w.minted && w1.session == w.session
    requires Recreating(w1, ctx, row) && row.Fine?
    ensures row.w.db == Inserted(Base(w.db, ctx), ctx, FreshId(w)) && row.w.minted == w.minted + 1
    ensures row.value == FreshId(w) && Quiet(row.w) && row.w.errors == w1.errors
  {
    hide Cleared, Removing;
  }

  lemma FillReports(w: World, ctx: Context, server: Id, cards: seq<Card>)
    ensures w.errors <= Fill(w, ctx, server, cards).w.errors
  {
    FieldsReport(w, ctx);
    var fields := WriteFields(w, ctx);
    hide WriteFields, UpdateRow, PersistCards, FinalState;
    if fields.Fine? {
      CardsErrors(fields.w, ctx.dcName, server, cards, BondTaken(cards), {});
      var net := Persist(fields.w, ctx, server, cards);
      if net.Fine? { FinalReports(net.w, ctx); }
    }
  }

  /**
   After any number of attempts cut off at any point, a clean finish leaves the rows
   of a single run: they depend only on the message and on the store before the first
   attempt, never on the faults, and differ between runs only in the server's key.
   */
  lemma CleanFinishesAgree(w: World, m: CreateMsg, n: nat)
    requires Quiet(w) && Sound(w) && Usable(m) && SafeTags(Ctx(w, m), w.db.catalog)
    requires Unmistakable(w, Cards(m)) && Clean(Creates(w, m, n).w, m)
    ensures
      var before := Creates(w, m, n).w;
      Finished(w.db, CreateServer(before, m).w.db, Ctx(w, m), m, FreshId(before))
  {
    hide Creates, SafeTags, DistinctCards, Clean, Sound, NamesUnique, KindsUnique, Base, Live, FinalCols, Cards, CreateServer;
    CreatesResume(w, m, n);
    var before := Creates(w, m, n).w;
    CreateClean(before, m);
    SamePlan(w.db, before.db, Ctx(w, m), m);
  }

  /** The server row of a clean finish, for every message. */
  lemma FinishRow(w: World, m: CreateMsg, n: nat)
    requires Quiet(w) && Sound(w) && Usable(m) && SafeTags(Ctx(w, m), w.db.catalog) && Clean(Creates(w, m, n).w, m)
    ensures
      var before := Creates(w, m, n).w;
      FinishedRow(w.db, CreateServer(before, m).w.db, Ctx(w, m), FreshId(before))
  {
    hide Creates, SafeTags, DistinctCards, Clean, Sound, NamesUnique, KindsUnique, Base, Live, FinalCols, Cards, CreateServer;
    CreatesResume(w, m, n);
    CreateRow(Creates(w, m, n).w, m);
  }
}
