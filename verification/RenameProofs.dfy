/**
 Tags that rename the row they are written to. Every update of a create looks for the row
 by the message's hostname and uuid, so a row that lost them is not written again.
 */
module RenameProofs {
  import opened Basics
  import opened Cmdb
  import opened Planning
  import opened Retry
  import opened RetryProofs
  import opened StoreFacts
  import opened Attachments
  import opened Tags
  import opened TagsProofs
  import opened Create
  import opened RecreateProofs
  import opened FieldProofs
  import opened Invariants
  import opened NetProofs
  import opened CreateProofs
  import opened AttachTidy
  import opened Runs

  /** The row a message inserted, whatever it carries by now, after rows without its hostname. */
  ghost predicate Carried(db: Db, kept: seq<Server>, id: Id, cols: Cols, ctx: Context) {
    && db.servers == kept + [Server(id, cols)]
    && forall s :: s in kept ==> !Is(s, "hostname", ctx.hostname)
  }

  /** These columns are found by the message's hostname and uuid. */
  ghost predicate HasNames(cols: Cols, ctx: Context) {
    && "hostname" in cols && cols["hostname"] == Text(ctx.hostname)
    && "uuid" in cols && cols["uuid"] == Text(ctx.uuid)
  }

  lemma RowOfMeans(db: Db, kept: seq<Server>, id: Id, cols: Cols, ctx: Context)
    ensures RowOf(db, kept, id, cols, ctx) <==> Carried(db, kept, id, cols, ctx) && HasNames(cols, ctx)
  {
  }

  lemma OneRowOnly(db: Db, kept: seq<Server>, id: Id, cols: Cols, cols': Cols)
    requires db.servers == kept + [Server(id, cols)] && db.servers == kept + [Server(id, cols')]
    ensures cols == cols'
  {
    assert db.servers[|kept|] == Server(id, cols) && db.servers[|kept|] == Server(id, cols');
  }

  // -- a row that lost its names stays as it is ------------------------------------------------------

  lemma LostUntouched(db: Db, kept: seq<Server>, id: Id, cols: Cols, ctx: Context, m: Cols, key: Id)
    requires Carried(db, kept, id, cols, ctx) && !HasNames(cols, ctx)
    ensures Commit(db, UpdateServers(Some(ctx.hostname), Some(ctx.uuid), m), key).servers == db.servers
  {
    var f := Mutated(Some(ctx.hostname), Some(ctx.uuid), m);
    MapConcat(kept, [Server(id, cols)], f);
    MapKept(kept, ctx, m);
    assert Map([Server(id, cols)], f) == [Server(id, cols)];
  }

  lemma LostUpdate(w: World, kept: seq<Server>, id: Id, cols: Cols, ctx: Context, m: Cols, o: Opts)
    requires Quiet(w) && Carried(w.db, kept, id, cols, ctx) && !HasNames(cols, ctx)
    ensures
      var t := UpdateRow(w, ctx, m, o);
      Quiet(t.w) && t.w.db.servers == w.db.servers
  {
    var op := UpdateServers(Some(ctx.hostname), Some(ctx.uuid), m);
    WriteCall(w, op, o);
    LostUntouched(w.db, kept, id, cols, ctx, m, FreshId(w));
    hide Call, Reads, Commit, Reported;
  }

  lemma {:induction false} LostReplay(w: World, kept: seq<Server>, id: Id, cols: Cols, ctx: Context, writes: seq<FieldWrite>)
    requires Quiet(w) && Carried(w.db, kept, id, cols, ctx) && !HasNames(cols, ctx)
    ensures
      var s := ReplayWrites(w, ctx, writes);
      Quiet(s.w) && s.w.db.servers == w.db.servers
    decreases |writes|
  {
    if writes != [] {
      LostUpdate(w, kept, id, cols, ctx, writes[0].mutation, WriteOpts(writes[0]));
      hide UpdateRow;
      var t := UpdateRow(w, ctx, writes[0].mutation, WriteOpts(writes[0]));
      if t.answer.Got? { LostReplay(t.w, kept, id, cols, ctx, writes[1..]); }
    }
  }

  /** What `Fill` needs of the world a row was just inserted in. */
  ghost predicate JustInserted(w: World, id: Id) {
    Quiet(w) && Sound(w) && Born(id, w.session, w.minted) && NoCards(w.db, id)
  }

  /** Cards never touch a server row. */
  lemma CardsLeaveServers(w: World, ctx: Context, id: Id, m: CreateMsg)
    requires JustInserted(w, id)
    ensures
      var s := Persist(w, ctx, id, Cards(m));
      Quiet(s.w) && s.w.db.servers == w.db.servers && Steady(s.w)
  {
    hide Cards, Persist, NamesUnique, KindsUnique, Keyed, Unborn;
    CardsPart(w, ctx, id, m);
  }

  lemma FieldsKeepCards(w: World, ctx: Context, id: Id)
    requires JustInserted(w, id)
    ensures JustInserted(WriteFields(w, ctx).w, id)
  {
    hide WriteFields, NamesUnique, KindsUnique, Keyed, Unborn;
    FieldsSteady(w, ctx);
  }

  /** A row that lost its names with its fields never gets its final state. */
  lemma LostStaysLost(w: World, kept: seq<Server>, id: Id, cols: Cols, ctx: Context, m: CreateMsg)
    requires JustInserted(w, id)
    requires Carried(WriteFields(w, ctx).w.db, kept, id, cols, ctx) && !HasNames(cols, ctx)
    ensures Fill(w, ctx, id, Cards(m)).w.db.servers == kept + [Server(id, cols)]
  {
    hide Cards, Persist, WriteFields, UpdateRow, FinalState, JustInserted, HasNames;
    FieldsKeepCards(w, ctx, id);
    var fields := WriteFields(w, ctx);
    if fields.Fine? {
      CardsLeaveServers(fields.w, ctx, id, m);
      var net := Persist(fields.w, ctx, id, Cards(m));
      if net.Fine? { LostUpdate(net.w, kept, id, cols, ctx, FinalState(ctx, net.w.errors), RECORDS_STATE); }
    }
  }

  // -- an accepted batch decides ----------------------------------------------------------------------

  /** The batch of a create, and what became of it. */
  function BatchOf(w: World, ctx: Context): Cols { Merge(CreateWrites(ctx, w.db.catalog.refs)) }
  function BatchSent(w: World, ctx: Context): Turn { UpdateRow(w, ctx, BatchOf(w, ctx), Opts("batch", false, None)) }

  predicate BatchTaken(w: World, ctx: Context) {
    BatchSent(w, ctx).answer.Got? && BatchSent(w, ctx).answer.reply != Nothing
  }

  lemma TakenBatch(w: World, kept: seq<Server>, id: Id, cols: Cols, ctx: Context)
    requires Quiet(w) && RowOf(w.db, kept, id, cols, ctx) && BatchTaken(w, ctx)
    ensures
      var s := WriteFields(w, ctx);
      s == Fine(BatchSent(w, ctx).w, ()) && Quiet(s.w) && SameCards(w.db, s.w.db) && Carried(s.w.db, kept, id, cols + BatchOf(w, ctx), ctx)
  {
    var op := UpdateServers(Some(ctx.hostname), Some(ctx.uuid), BatchOf(w, ctx));
    BatchNeverEmpty(ctx, w.db.catalog.refs);
    WriteCall(w, op, Opts("batch", false, None));
    hide CreateWrites, Merge, Call, Reads;
    var f := Mutated(Some(ctx.hostname), Some(ctx.uuid), BatchOf(w, ctx));
    MapConcat(kept, [Server(id, cols)], f);
    MapKept(kept, ctx, BatchOf(w, ctx));
    assert Map([Server(id, cols)], f) == [Server(id, cols + BatchOf(w, ctx))];
  }

  lemma MergedNames(cols: Cols, m: Cols, ctx: Context)
    requires HasNames(cols, ctx)
    ensures HasNames(cols + m, ctx) <==> KeepsNames(m, ctx)
  {
  }

  /** The final state is on the row, or writing it was refused and recorded. */
  ghost predicate Closing(cols: Cols, before: Cols, errors: seq<Entry>, ctx: Context) {
    if Failed(errors) then MarkedError(cols, errors) else cols == before + map["state" := Text(ctx.readyState)]
  }

  /** A row that kept its names through the batch gets its final state. */
  lemma KeptIsClosed(w: World, kept: seq<Server>, id: Id, cols: Cols, ctx: Context, m: CreateMsg) returns (cols': Cols)
    requires JustInserted(w, id)
    requires WriteFields(w, ctx).Fine? && RowOf(WriteFields(w, ctx).w.db, kept, id, cols, ctx)
    ensures
      var o := Fill(w, ctx, id, Cards(m));
      RowOf(o.w.db, kept, id, cols', ctx) && (o.status.Returned? ==> Closing(cols', cols, o.w.errors, ctx))
  {
    hide Cards, Persist, WriteFields, UpdateRow, Failed, MarkedError, NamesUnique, KindsUnique, RowOf;
    FieldsKeepCards(w, ctx, id);
    var fields := WriteFields(w, ctx);
    cols' := cols;
    CardsLeaveServers(fields.w, ctx, id, m);
    var net := Persist(fields.w, ctx, id, Cards(m));
    SameRow(fields.w.db, net.w.db, kept, id, cols, ctx);
    if net.Fine? { cols' := StatePart(net.w, kept, id, cols, ctx); }
  }

  /**
   Once the batch is taken, what it wrote decides: the row still carries the message's
   hostname and uuid at the end exactly when the merged batch gives it no others, and
   then it gets its final state; otherwise nothing is ever written to it again, its
   state included.
   */
  lemma BatchDecides(w: World, kept: seq<Server>, id: Id, cols: Cols, ctx: Context, m: CreateMsg) returns (cols': Cols)
    requires JustInserted(w, id) && RowOf(w.db, kept, id, cols, ctx) && BatchTaken(w, ctx)
    ensures
      var o, batch := Fill(w, ctx, id, Cards(m)), BatchOf(w, ctx);
      && o.w.db.servers == kept + [Server(id, cols')]
      && (HasNames(cols', ctx) <==> KeepsNames(batch, ctx))
      && (!KeepsNames(batch, ctx) ==> cols' == cols + batch)
      && (KeepsNames(batch, ctx) && o.status.Returned? ==> Closing(cols', cols + batch, o.w.errors, ctx))
  {
    hide BatchOf, BatchSent, Fill, Cards, WriteFields, Failed, MarkedError, JustInserted, KeepsNames, BatchTaken;
    assert Quiet(w) by { assert JustInserted(w, id); IsQuiet(w, id); }
    TakenBatch(w, kept, id, cols, ctx);
    var now := cols + BatchOf(w, ctx);
    RowOfMeans(w.db, kept, id, cols, ctx);
    MergedNames(cols, BatchOf(w, ctx), ctx);
    RowOfMeans(WriteFields(w, ctx).w.db, kept, id, now, ctx);
    if KeepsNames(BatchOf(w, ctx), ctx) {
      cols' := KeptIsClosed(w, kept, id, now, ctx, m);
      RowOfMeans(Fill(w, ctx, id, Cards(m)).w.db, kept, id, cols', ctx);
    } else {
      cols' := now;
      LostStaysLost(w, kept, id, now, ctx, m);
    }
  }

  lemma IsQuiet(w: World, id: Id)
    requires JustInserted(w, id)
    ensures Quiet(w) && Sound(w)
  {
  }

  // -- which messages keep their row under every tape ---------------------------------------------------

  /** With no faults ahead one request decides a call. */
  lemma NoFaultUpdate(w: World, ctx: Context, m: Cols, o: Opts)
    requires Quiet(w) && w.tape == [] && !o.raises
    ensures
      var t, op := UpdateRow(w, ctx, m, o), UpdateServers(Some(ctx.hostname), Some(ctx.uuid), m);
      && Quiet(t.w) && t.w.tape == [] && t.w.db == Commit(w.db, op, FreshId(w)) && t.answer.Got?
      && (t.answer.reply != Nothing <==> Accepted(w.db, m)) && t.w.session == w.session
      && (Accepted(w.db, m) ==> t.w.errors == w.errors)
  {
    var op := UpdateServers(Some(ctx.hostname), Some(ctx.uuid), m);
    assert Attempts(w, op, NoSelector, o, 1) == Issue(w, op, NoSelector, o, 1);
    hide Reads;
  }

  /** One of these writes is taken and renames the row: with no faults the replay loses it. */
  lemma {:induction false} ReplayRenames(
    w: World, kept: seq<Server>, id: Id, cols: Cols, ctx: Context, writes: seq<FieldWrite>) returns (cols': Cols)
    requires Quiet(w) && w.tape == [] && RowOf(w.db, kept, id, cols, ctx)
    requires !SafeWrites(writes, ctx, w.db.catalog.refused)
    ensures Carried(ReplayWrites(w, ctx, writes).w.db, kept, id, cols', ctx) && !HasNames(cols', ctx)
    decreases |writes|
  {
    var x := writes[0];
    var t := UpdateRow(w, ctx, x.mutation, WriteOpts(x));
    NoFaultUpdate(w, ctx, x.mutation, WriteOpts(x));
    hide UpdateRow;
    RowOfMeans(w.db, kept, id, cols, ctx);
    if Accepted(w.db, x.mutation) && !KeepsNames(x.mutation, ctx) {
      cols' := cols + x.mutation;
      Renamed(w.db, kept, id, cols, ctx, x.mutation, FreshId(w));
      MergedNames(cols, x.mutation, ctx);
      LostReplay(t.w, kept, id, cols', ctx, writes[1..]);
    } else {
      var now := if Accepted(w.db, x.mutation) then cols + x.mutation else cols;
      if Accepted(w.db, x.mutation) {
        UpdateTouchesRow(w.db, kept, id, cols, ctx, x.mutation);
        SameKeyless(w.db, ctx, x.mutation, FreshId(w));
      }
      RestUnsafe(writes, ctx, w.db);
      cols' := ReplayRenames(t.w, kept, id, now, ctx, writes[1..]);
    }
  }

  lemma SameKeyless(db: Db, ctx: Context, m: Cols, key: Id)
    ensures
      var op := UpdateServers(Some(ctx.hostname), Some(ctx.uuid), m);
      Commit(db, op, key) == Commit(db, op, Id(0, 0))
  {
  }

  lemma Renamed(db: Db, kept: seq<Server>, id: Id, cols: Cols, ctx: Context, m: Cols, key: Id)
    requires RowOf(db, kept, id, cols, ctx) && Accepted(db, m)
    ensures Carried(Commit(db, UpdateServers(Some(ctx.hostname), Some(ctx.uuid), m), key), kept, id, cols + m, ctx)
  {
    var f := Mutated(Some(ctx.hostname), Some(ctx.uuid), m);
    MapConcat(kept, [Server(id, cols)], f);
    MapKept(kept, ctx, m);
    assert Map([Server(id, cols)], f) == [Server(id, cols + m)];
  }

  lemma RestUnsafe(writes: seq<FieldWrite>, ctx: Context, db: Db)
    requires !SafeWrites(writes, ctx, db.catalog.refused)
    requires !Accepted(db, writes[0].mutation) || KeepsNames(writes[0].mutation, ctx)
    ensures !SafeWrites(writes[1..], ctx, db.catalog.refused)
  {
    var x :| x in writes && Taken(x, db.catalog.refused) && !KeepsNames(x.mutation, ctx);
    assert x != writes[0];
    assert x in writes[1..];
  }

  /** A refused batch is replayed write by write, and the first that renames the row loses it. */
  lemma UnsafeLoses(w: World, kept: seq<Server>, id: Id, cols: Cols, ctx: Context, m: CreateMsg) returns (cols': Cols)
    requires JustInserted(w, id) && RowOf(w.db, kept, id, cols, ctx) && !SafeTags(ctx, w.db.catalog)
    requires w.tape == [Rejected(DataError)]
    ensures Fill(w, ctx, id, Cards(m)).w.db.servers == kept + [Server(id, cols')] && !HasNames(cols', ctx)
  {
    hide CreateWrites, Merge, Fill, Cards, RowOf, Carried, HasNames, SafeWrites;
    var writes := CreateWrites(ctx, w.db.catalog.refs);
    var o := Opts("batch", false, None);
    var op := UpdateServers(Some(ctx.hostname), Some(ctx.uuid), Merge(writes));
    BatchNeverEmpty(ctx, w.db.catalog.refs);
    assert Attempts(w, op, NoSelector, o, 1) == Issue(w, op, NoSelector, o, 1);
    var t := UpdateRow(w, ctx, Merge(writes), o);
    assert t.answer == Got(Nothing) && t.w.db == w.db && t.w.tape == [] && Quiet(t.w) by { hide Reads, Commit; }
    cols' := ReplayRenames(t.w, kept, id, cols, ctx, writes);
    LostStaysLost(w, kept, id, cols', ctx, m);
  }

  /**
   Exactly when a create keeps its row's hostname and uuid whatever the faults: when every
   field write the CMDB takes leaves them alone or writes them back.
   */
  lemma SafeExactly(w: World, kept: seq<Server>, id: Id, cols: Cols, ctx: Context, m: CreateMsg)
    requires JustInserted(w, id) && RowOf(w.db, kept, id, cols, ctx) && StateFree(ctx, w.db.catalog.refs)
    ensures
      (forall tape: seq<Fault> :: Keeps(w.(tape := tape), kept, id, ctx, m)) <==> SafeTags(ctx, w.db.catalog)
  {
    hide SafeTags, JustInserted, StateFree, RowOf, HasNames, Keeps;
    if SafeTags(ctx, w.db.catalog) {
      forall tape: seq<Fault> ensures Keeps(w.(tape := tape), kept, id, ctx, m) {
        SafeKeeps(w.(tape := tape), kept, id, cols, ctx, m) by { Retaped(w, tape, id); }
      }
    } else {
      var w' := w.(tape := [Rejected(DataError)]);
      Retaped(w, w'.tape, id);
      var cols' := UnsafeLoses(w', kept, id, cols, ctx, m);
      LostIsNotKept(w', kept, id, cols', ctx, m);
    }
  }

  /** At the end of this filling the row carries the message's names. */
  ghost predicate Keeps(w: World, kept: seq<Server>, id: Id, ctx: Context, m: CreateMsg) {
    exists cols :: RowOf(Fill(w, ctx, id, Cards(m)).w.db, kept, id, cols, ctx)
  }

  lemma Retaped(w: World, tape: seq<Fault>, id: Id)
    ensures JustInserted(w, id) <==> JustInserted(w.(tape := tape), id)
  {
  }

  lemma SafeKeeps(w: World, kept: seq<Server>, id: Id, cols: Cols, ctx: Context, m: CreateMsg)
    requires JustInserted(w, id) && RowOf(w.db, kept, id, cols, ctx) && SafeTags(ctx, w.db.catalog) && StateFree(ctx, w.db.catalog.refs)
    ensures Keeps(w, kept, id, ctx, m)
  {
    hide SafeTags, StateFree, Fill, RowOf, Complete, MarkedError, Failed, Filling, Sound;
    var cols' := ServerFilled(w, kept, id, cols, ctx, m);
  }

  lemma LostIsNotKept(w: World, kept: seq<Server>, id: Id, cols: Cols, ctx: Context, m: CreateMsg)
    requires Fill(w, ctx, id, Cards(m)).w.db.servers == kept + [Server(id, cols)] && !HasNames(cols, ctx)
    ensures !Keeps(w, kept, id, ctx, m)
  {
    hide Fill, Cards;
    var db := Fill(w, ctx, id, Cards(m)).w.db;
    forall c ensures !RowOf(db, kept, id, c, ctx) {
      RowOfMeans(db, kept, id, c, ctx);
      if RowOf(db, kept, id, c, ctx) { OneRowOnly(db, kept, id, cols, c); }
    }
  }

  // -- whole messages -----------------------------------------------------------------------------------

  /** The world right after the row is back. */
  function Recreated(w: World, m: CreateMsg): World
    requires Usable(m)
  {
    Recreate(BuildContext(w.(errors := []), m).w, Ctx(w, m)).w
  }

  lemma RecreatedReady(w: World, m: CreateMsg)
    requires Quiet(w) && Sound(w) && Usable(m) && GotPast(w, m)
    ensures JustInserted(Recreated(w, m), FreshId(w))
    ensures RowOf(Recreated(w, m).db, Base(w.db, Ctx(w, m)).servers, FreshId(w), NewServer(Ctx(w, m)), Ctx(w, m))
    ensures CreateServer(w, m) == Fill(Recreated(w, m), Ctx(w, m), FreshId(w), Cards(m))
    ensures Recreated(w, m).db.catalog == w.db.catalog
  {
    hide BuildContext, Recreate, Fill, ContextOf, Cards;
    var w0 := w.(errors := []);
    var c := BuildContext(w0, m);
    ContextBuilt(w0, m);
    ContextHostname(w.db.catalog, m);
    RowRecreated(c.w, Ctx(w, m));
    RowReady(w, Recreated(w, m), Ctx(w, m));
    hide Sound, Base;
  }

  /** A create whose batch was taken: the row keeps its names, and gets its final state, exactly when the batch leaves them. */
  lemma CreateDecides(w: World, m: CreateMsg) returns (cols: Cols)
    requires Quiet(w) && Sound(w) && Usable(m) && GotPast(w, m) && BatchTaken(Recreated(w, m), Ctx(w, m))
    ensures
      var o, ctx := CreateServer(w, m), Ctx(w, m);
      var batch, initial := BatchOf(w, ctx), NewServer(ctx);
      && o.w.db.servers == Base(w.db, ctx).servers + [Server(FreshId(w), cols)]
      && (HasNames(cols, ctx) <==> KeepsNames(batch, ctx))
      && (!KeepsNames(batch, ctx) ==> cols == initial + batch && cols["state"] == Text("setup"))
      && (KeepsNames(batch, ctx) && o.status.Returned? ==> Closing(cols, initial + batch, o.w.errors, ctx))
  {
    hide GotPast, CreateServer, BuildContext, Recreate, Recreated, Fill, Cards, ContextOf, JustInserted, RowOf, BatchTaken, Base, CreateWrites, Merge, HasNames, KeepsNames, Closing;
    RecreatedReady(w, m);
    StateIsFree(w.db.catalog, m, m.instance.value);
    MergeKeepsState(CreateWrites(Ctx(w, m), w.db.catalog.refs));
    cols := BatchDecides(Recreated(w, m), Base(w.db, Ctx(w, m)).servers, FreshId(w), NewServer(Ctx(w, m)), Ctx(w, m), m);
  }

  // -- and one that loses its row without a word ------------------------------------------------------------

  /** With no faults ahead a call that is not refused is its one request. */
  lemma NoFaultCall(w: World, op: Op, sel: Selector, o: Opts)
    requires Quiet(w) && w.tape == [] && Accepts(w.db, op)
    ensures
      var t := Call(w, op, sel, o);
      && t == Exchange(w, op) && Quiet(t.w) && t.w.tape == [] && t.w.errors == w.errors
      && t.answer == Got(Reads(w.db, op, FreshId(w))) && t.w.db == Commit(w.db, op, FreshId(w))
  {
    hide Reads, Commit;
    assert Attempts(w, op, sel, o, 1) == Issue(w, op, sel, o, 1);
  }

  ghost predicate Calm(w: World, errors: seq<Entry>) { Quiet(w) && w.tape == [] && w.errors == errors }

  lemma {:induction false} RailsCalm(w: World, rails: seq<Id>)
    requires Calm(w, w.errors)
    ensures RemoveRails(w, rails).Fine? && Calm(RemoveRails(w, rails).w, w.errors)
    decreases |rails|
  {
    if rails != [] {
      NoFaultCall(w, DeleteRail(rails[0]), NoSelector, RAISES_RAILS);
      hide Call, Exchange;
      RailsCalm(Call(w, DeleteRail(rails[0]), NoSelector, RAISES_RAILS).w, rails[1..]);
    }
  }

  lemma {:induction false} RemovalCalm(w: World, found: seq<Doomed>)
    requires Calm(w, w.errors)
    ensures RemoveAll(w, found).Fine? && Calm(RemoveAll(w, found).w, w.errors)
    decreases |found|
  {
    if found != [] {
      RailsCalm(w, found[0].rails);
      var w1 := RemoveRails(w, found[0].rails).w;
      NoFaultCall(w1, DeleteServer(found[0].server), NoSelector, RAISES_SERVER_DELETE);
      hide Call, Exchange, RemoveRails;
      RemovalCalm(RemoveOne(w, found[0]).w, found[1..]);
    }
  }

  lemma RecreateCalm(w: World, ctx: Context)
    requires Calm(w, w.errors)
    ensures Recreate(w, ctx).Fine? && Calm(Recreate(w, ctx).w, w.errors)
  {
    NoFaultCall(w, SelectServers(NonEmpty(ctx.hostname), NonEmpty(ctx.uuid)), NoSelector, RAISES_SELECT);
    var t := Call(w, SelectServers(NonEmpty(ctx.hostname), NonEmpty(ctx.uuid)), NoSelector, RAISES_SELECT);
    RemovalCalm(t.w, t.answer.reply.found);
    var removed := RemoveServer(w, ctx.uuid, ctx.hostname);
    hide Exchange, RemoveAll;
    NoFaultCall(removed.w, InsertServer(NewServer(ctx)), Once(SelectServerByHostname(ctx.hostname)), RAISES_SERVER_INSERT);
    hide Call;
  }

  lemma ContextCalm(w: World, m: CreateMsg)
    requires Calm(w, []) && Usable(m)
    requires First(WithoutState(CmdbTags(m.instance.value.metadata)), HasKey(CAP_TENANT_TAG)).None?
    ensures
      var s := BuildContext(w, m);
      s.Fine? && s.value.Some? && Calm(s.w, [])
  {
    hide CmdbTags, WithoutState, KeptTags, IsK8sNode, Read;
    NoFaultCall(w, SelectCloud(m.project), NoSelector, RAISES_CLOUD);
  }

  /** With no faults and no cards, a taken batch and a taken final state are all there is to fill. */
  lemma FillCalm(w: World, ctx: Context, id: Id, m: CreateMsg)
    requires Calm(w, []) && Cards(m) == [] && Accepted(w.db, BatchOf(w, ctx))
    requires Accepted(w.db, map["state" := Text(ctx.readyState)])
    ensures
      var o := Fill(w, ctx, id, Cards(m));
      o.status.Returned? && o.w.errors == [] && BatchTaken(w, ctx)
  {
    hide CreateWrites, Merge;
    BatchNeverEmpty(ctx, w.db.catalog.refs);
    NoFaultUpdate(w, ctx, BatchOf(w, ctx), Opts("batch", false, None));
    var t := BatchSent(w, ctx);
    NoFaultUpdate(t.w, ctx, FinalState(ctx, []), RECORDS_STATE);
    hide UpdateRow;
    assert WriteFields(w, ctx) == Fine(t.w, ());
    assert Persist(t.w, ctx, id, Cards(m)) == Fine(t.w, ());
  }

  /**
   A create with no faults at all that renames its row: it returns, records nothing, and the
   row stays in `setup` under another name.
   */
  lemma RenamedSilently(w: World, m: CreateMsg)
    requires Quiet(w) && Sound(w) && w.tape == [] && Usable(m) && Cards(m) == []
    requires First(WithoutState(CmdbTags(m.instance.value.metadata)), HasKey(CAP_TENANT_TAG)).None?
    requires Accepted(w.db, BatchOf(w, Ctx(w, m))) && Accepted(w.db, map["state" := Text(Ctx(w, m).readyState)])
    requires !KeepsNames(BatchOf(w, Ctx(w, m)), Ctx(w, m))
    ensures
      var o, ctx := CreateServer(w, m), Ctx(w, m);
      var cols := NewServer(ctx) + BatchOf(w, ctx);
      && o.status.Returned? && o.w.errors == []
      && o.w.db.servers == Base(w.db, ctx).servers + [Server(FreshId(w), cols)]
      && !HasNames(cols, ctx) && cols["state"] == Text("setup")
  {
    hide CreateServer, BuildContext, Recreate, Fill, Cards, ContextOf, Base, CreateWrites, Merge, HasNames, KeepsNames, WithoutState, CmdbTags, First, Accepted;
    var w0, ctx := w.(errors := []), Ctx(w, m);
    ContextCalm(w0, m);
    ContextBuilt(w0, m);
    var c := BuildContext(w0, m);
    RecreateCalm(c.w, ctx);
    RecreatedReady(w, m);
    SameAccepted(w.db, Recreated(w, m).db);
    FillCalm(Recreated(w, m), ctx, FreshId(w), m);
    var cols := CreateDecides(w, m);
  }

  lemma SameAccepted(db: Db, db': Db)
    requires db'.catalog == db.catalog
    ensures forall m :: Accepted(db', m) == Accepted(db, m)
  {
  }

  /** Tags a cluster node may carry: its server is to be called something else. */
  const RENAMING := [Tag("cmdb.hostname", "other"), Tag(K8S_NODE_TAG, "cluster")]

  function RenamingMessage(hostname: string, uuid: string): CreateMsg {
    CreateMsg(Some(Instance(Some(hostname), Some(uuid), [], RENAMING, "flavor")), [], "project", "region", None)
  }

  lemma OneTag(tag: Tag, p: Tag -> bool)
    ensures Filter([tag], p) == if p(tag) then [tag] else []
    ensures First([tag], p) == if p(tag) then Some(tag) else None
  {
    assert [tag][1..] == [];
  }

  lemma RenamingTag()
    ensures Prefixed(CMDB_PREFIX)(RENAMING[0]) && Stripped()(RENAMING[0]) == Tag("hostname", "other")
  {
    assert RENAMING[0].key == CMDB_PREFIX + "hostname";
  }

  lemma NodeTag()
    ensures !Prefixed(CMDB_PREFIX)(RENAMING[1]) && HasKey(K8S_NODE_TAG)(RENAMING[1])
  {
    assert RENAMING[1].key[0] == 'p' && CMDB_PREFIX[0] == 'c';
  }

  lemma TwoTags(a: Tag, b: Tag)
    requires Prefixed(CMDB_PREFIX)(a) && !Prefixed(CMDB_PREFIX)(b) && HasKey(K8S_NODE_TAG)(b)
    ensures CmdbTags([a, b]) == [Stripped()(a)] && IsK8sNode([a, b])
  {
    hide Stripped, StartsWith;
    assert [a, b] == [a] + [b];
    OneTag(a, Prefixed(CMDB_PREFIX));
    OneTag(b, Prefixed(CMDB_PREFIX));
    FilterConcat([a], [b], Prefixed(CMDB_PREFIX));
    MapOne(a, Stripped());
    assert b in [a, b];
  }

  lemma RenamingTags()
    ensures CmdbTags(RENAMING) == [Tag("hostname", "other")] && IsK8sNode(RENAMING)
  {
    RenamingTag();
    NodeTag();
    hide CmdbTags, IsK8sNode, Prefixed, HasKey, Stripped;
    TwoTags(RENAMING[0], RENAMING[1]);
  }

  lemma KeptRenaming()
    ensures
      var tags := [Tag("hostname", "other")];
      WithoutState(tags) == tags && First(tags, HasKey(CAP_TENANT_TAG)).None? && KeptTags(tags, true) == tags
  {
    var tag := Tag("hostname", "other");
    assert tag.key[0] == 'h';
    OneTag(tag, LacksKey("state"));
    OneTag(tag, NotPrefixed("state."));
    OneTag(tag, LacksKey(CAP_TENANT_TAG));
    OneTag(tag, HasKey(CAP_TENANT_TAG));
  }

  /** A tag that is left over is written last. */
  lemma LastWrite(ctx: Context, refs: set<string>)
    requires ctx.tags == [Tag("hostname", "other")] && "hostname" !in refs
    ensures
      var batch := Merge(CreateWrites(ctx, refs));
      "hostname" in batch && batch["hostname"] == Text("other")
  {
    hide Dot;
    var tag := Tag("hostname", "other");
    hide StepWrites, Merge;
    assert Head("hostname") == "hostname" by { assert '.' !in "hostname"; }
    OneTag(tag, Tags.Unhandled(STEP_NAMES));
    MapOne(tag, TagWrite(refs));
    var steps, last := StepWrites(ctx, refs, STEP_NAMES), TagWrite(refs)(tag);
    assert CreateWrites(ctx, refs) == steps + [last];
    assert TagMutation([tag], refs) == TagMutation([], refs)["hostname" := Text("other")];
    MergeOne(steps, last);
  }

  lemma RenamingContext(w: World, m: CreateMsg, hostname: string, uuid: string)
    requires m == RenamingMessage(hostname, uuid) && hostname != ""
    ensures
      var ctx := Ctx(w, m);
      && ctx.hostname == hostname && ctx.tags == [Tag("hostname", "other")]
      && First(WithoutState(CmdbTags(m.instance.value.metadata)), HasKey(CAP_TENANT_TAG)).None?
  {
    hide CmdbTags, IsK8sNode, KeptTags, WithoutState, First;
    RenamingTags();
    KeptRenaming();
  }

  /** A row that was set up and never finished, under this name. */
  predicate LeftInSetup(s: Server, hostname: string) { Is(s, "hostname", hostname) && Is(s, "state", "setup") }

  /** On a store with plain server columns that refuses nothing, this message loses its row without a word. */
  lemma ClusterNodeLosesRow(w: World, hostname: string, uuid: string, m: CreateMsg)
    requires m == RenamingMessage(hostname, uuid) && hostname != "" && hostname != "other"
    requires Quiet(w) && Sound(w) && w.tape == [] && w.db.catalog.refused == {} && "hostname" !in w.db.catalog.refs
    ensures CreateServer(w, m).status.Returned? && CreateServer(w, m).w.errors == []
    ensures exists s :: s in CreateServer(w, m).w.db.servers && s.id == FreshId(w) && LeftInSetup(s, "other")
    ensures forall s :: s in CreateServer(w, m).w.db.servers ==> !Is(s, "hostname", hostname)
  {
    hide CreateServer, Base, CreateWrites, Merge, CmdbTags, WithoutState, IsK8sNode, First, ContextOf, Cards;
    RenamingContext(w, m, hostname, uuid);
    var ctx := Ctx(w, m);
    assert Cards(m) == [] by { NoNetworks(m); }
    LastWrite(ctx, w.db.catalog.refs);
    RenamedSilently(w, m);
    BaseHasNone(w.db, ctx);
    var cols := NewServer(ctx) + BatchOf(w, ctx);
    assert Server(FreshId(w), cols) in CreateServer(w, m).w.db.servers && LeftInSetup(Server(FreshId(w), cols), "other");
  }

  lemma NoNetworks(m: CreateMsg)
    requires m.instance.Some? && m.instance.value.networks == [] && m.ports == []
    ensures Cards(m) == []
  {
  }
}
