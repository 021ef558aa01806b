/**
 Whole creates: the exact conditions of the filling, carried to the tape of a whole message.
 A run in which every request up to some point replies does not look at the tape beyond it.
 */
module CreateExactly {
  import opened Basics
  import opened Cmdb
  import opened Planning
  import opened Retry
  import opened RetryProofs
  import opened StoreFacts
  import opened Attachments
  import opened Tags
  import opened TagsProofs
  import opened Create
  import opened RecreateProofs
  import opened FieldProofs
  import opened Invariants
  import opened NetProofs
  import opened CreateProofs
  import opened CreateConverges
  import opened Runs
  import opened Tapes
  import opened LiveProofs
  import opened CleanCreate
  import opened RenameProofs
  import opened CleanExactly

  // -- the stages before the row is back, with all replies ------------------------------------------------

  lemma TenantPads(w: World, tags: seq<Tag>, rest: seq<Fault>)
    requires w.tape == []
    ensures
      var s := FindCapTenant(w, tags);
      && s.w.tape == [] && s.Fine?
      && FindCapTenant(After(w, Asked(w, s.w), rest), tags) == RetapeStage(s, rest)
  {
    match First(tags, HasKey(CAP_TENANT_TAG))
    case None => assert Reps(0) + rest == rest;
    case Some(tag) =>
      CallPads(w, SelectCapTenant(tag.value), NoSelector, RAISES_CAP_TENANT, rest);
      hide Call, Met;
  }

  lemma ContextPads(w: World, m: CreateMsg, rest: seq<Fault>)
    requires w.tape == [] && Readable(m)
    ensures
      var s := BuildContext(w, m);
      && s.w.tape == [] && s.Fine? && s.value.Some?
      && BuildContext(After(w, Asked(w, s.w), rest), m) == RetapeStage(s, rest)
  {
    hide FindCapTenant, Read, CmdbTags, WithoutState;
    var tags := WithoutState(CmdbTags(m.instance.value.metadata));
    var op := SelectCloud(m.project);
    CallPads(w, op, NoSelector, RAISES_CLOUD, []);
    var t := Call(w, op, NoSelector, RAISES_CLOUD);
    TenantPads(t.w, tags, rest);
    var k := Asked(t.w, FindCapTenant(t.w, tags).w);
    CallPads(w, op, NoSelector, RAISES_CLOUD, Reps(k) + rest);
    TwoPads(w, 1, k, rest);
    hide Call, Met;
  }

  lemma {:induction false} RailsPads(w: World, rails: seq<Id>, rest: seq<Fault>)
    requires w.tape == []
    ensures
      var s := RemoveRails(w, rails);
      && s.w.tape == [] && s.Fine?
      && RemoveRails(After(w, Asked(w, s.w), rest), rails) == RetapeStage(s, rest)
    decreases |rails|
  {
    if rails == [] {
      assert Reps(0) + rest == rest;
    } else {
      var op := DeleteRail(rails[0]);
      CallPads(w, op, NoSelector, RAISES_RAILS, []);
      var t := Call(w, op, NoSelector, RAISES_RAILS);
      RailsPads(t.w, rails[1..], rest);
      var k := Asked(t.w, RemoveRails(t.w, rails[1..]).w);
      CallPads(w, op, NoSelector, RAISES_RAILS, Reps(k) + rest);
      TwoPads(w, 1, k, rest);
      hide Call, Met;
    }
  }

  lemma OnePads(w: World, x: Doomed, rest: seq<Fault>)
    requires w.tape == []
    ensures
      var s := RemoveOne(w, x);
      && s.w.tape == [] && s.Fine?
      && RemoveOne(After(w, Asked(w, s.w), rest), x) == RetapeStage(s, rest)
  {
    hide RemoveRails;
    RailsPads(w, x.rails, []);
    var rails := RemoveRails(w, x.rails);
    var op := DeleteServer(x.server);
    CallPads(rails.w, op, NoSelector, RAISES_SERVER_DELETE, rest);
    RailsPads(w, x.rails, Reps(1) + rest);
    TwoPads(w, Asked(w, rails.w), 1, rest);
    hide Call, Met;
  }

  lemma {:induction false} AllPads(w: World, found: seq<Doomed>, rest: seq<Fault>)
    requires w.tape == []
    ensures
      var s := RemoveAll(w, found);
      && s.w.tape == [] && s.Fine?
      && RemoveAll(After(w, Asked(w, s.w), rest), found) == RetapeStage(s, rest)
    decreases |found|
  {
    if found == [] {
      assert Reps(0) + rest == rest;
    } else {
      hide RemoveOne;
      OnePads(w, found[0], []);
      var one := RemoveOne(w, found[0]);
      AllPads(one.w, found[1..], rest);
      var k := Asked(one.w, RemoveAll(one.w, found[1..]).w);
      OnePads(w, found[0], Reps(k) + rest);
      TwoPads(w, Asked(w, one.w), k, rest);
    }
  }

  lemma RemovePads(w: World, uuid: string, hostname: string, rest: seq<Fault>)
    requires w.tape == []
    ensures
      var s := RemoveServer(w, uuid, hostname);
      && s.w.tape == [] && s.Fine?
      && RemoveServer(After(w, Asked(w, s.w), rest), uuid, hostname) == RetapeStage(s, rest)
  {
    hide RemoveAll;
    var op := SelectServers(NonEmpty(hostname), NonEmpty(uuid));
    CallPads(w, op, NoSelector, RAISES_SELECT, []);
    var t := Call(w, op, NoSelector, RAISES_SELECT);
    assert t.answer.reply.ServerList?;
    hide Call, Met, Reads;
    AllPads(t.w, t.answer.reply.found, rest);
    var k := Asked(t.w, RemoveAll(t.w, t.answer.reply.found).w);
    CallPads(w, op, NoSelector, RAISES_SELECT, Reps(k) + rest);
    TwoPads(w, 1, k, rest);
  }

  lemma RecreatePads(w: World, ctx: Context, rest: seq<Fault>)
    requires w.tape == []
    ensures
      var s := Recreate(w, ctx);
      && s.w.tape == [] && s.Fine?
      && Recreate(After(w, Asked(w, s.w), rest), ctx) == RetapeStage(s, rest)
  {
    hide RemoveServer, NewServer;
    RemovePads(w, ctx.uuid, ctx.hostname, []);
    var removed := RemoveServer(w, ctx.uuid, ctx.hostname);
    var op, sel := InsertServer(NewServer(ctx)), Once(SelectServerByHostname(ctx.hostname));
    CallPads(removed.w, op, sel, RAISES_SERVER_INSERT, rest);
    RemovePads(w, ctx.uuid, ctx.hostname, Reps(1) + rest);
    TwoPads(w, Asked(w, removed.w), 1, rest);
    hide Call, Met;
  }

  /** The requests of this message up to its row, when all of them reply. */
  function ToRow(w: World, m: CreateMsg): nat
    requires Usable(m)
  {
    var w0 := w.(tape := [], errors := []);
    Asked(w0, Recreated(w0, m))
  }

  /** The world right after the row is back, when everything so far replied. */
  function RowWorld(w: World, m: CreateMsg): World
    requires Usable(m)
  {
    Recreated(w.(tape := []), m)
  }

  /** Replies up to the row, and any tape from there: the message gets past its row, and goes on with that tape. */
  lemma RowReached(w: World, m: CreateMsg, rest: seq<Fault>)
    requires Quiet(w) && Usable(m)
    ensures
      var v := w.(tape := Reps(ToRow(w, m)) + rest);
      GotPast(v, m) && Recreated(v, m) == RowWorld(w, m).(tape := rest)
    ensures RowWorld(w, m).tape == [] && GotPast(w.(tape := []), m)
  {
    hide BuildContext, Recreate, ContextOf;
    var w0 := w.(tape := [], errors := []);
    ContextPads(w0, m, []);
    var c := BuildContext(w0, m);
    ContextBuilt(w0, m);
    RecreatePads(c.w, Ctx(w, m), rest);
    var row := Recreate(c.w, Ctx(w, m));
    var k := Asked(c.w, row.w);
    ContextPads(w0, m, Reps(k) + rest);
    TwoPads(w0, Asked(w0, c.w), k, rest);
    assert w.(tape := []).(errors := []) == w0;
    assert w.(tape := Reps(ToRow(w, m)) + rest).(errors := []) == After(w0, ToRow(w, m), rest);
  }

  // -- the row keeps its names -----------------------------------------------------------------------------

  /** At the end of this create the row carries the message's hostname and uuid. */
  ghost predicate RowKept(w: World, m: CreateMsg)
    requires Usable(m)
  {
    exists cols :: RowOf(CreateServer(w, m).w.db, Base(w.db, Ctx(w, m)).servers, FreshId(w), cols, Ctx(w, m))
  }

  lemma KeptIsKeeps(w: World, m: CreateMsg)
    requires Quiet(w) && Sound(w) && Usable(m) && GotPast(w, m)
    ensures RowKept(w, m) <==> Keeps(Recreated(w, m), Base(w.db, Ctx(w, m)).servers, FreshId(w), Ctx(w, m), m)
  {
    hide CreateServer, GotPast, Recreated, Fill, Cards, ContextOf, RowOf, JustInserted;
    RecreatedReady(w, m);
  }

  /** A create that gets past its row keeps the row's names under these tags. */
  lemma SafeRowKept(w: World, m: CreateMsg)
    requires Quiet(w) && Sound(w) && Usable(m) && GotPast(w, m) && SafeTags(Ctx(w, m), w.db.catalog)
    ensures RowKept(w, m)
  {
    hide GotPast, Recreated, ContextOf, RowKept, Keeps, RowOf, JustInserted, SafeTags, Base;
    StateIsFree(w.db.catalog, m, m.instance.value);
    hide StateFree;
    RecreatedReady(w, m);
    KeptIsKeeps(w, m);
    SafeKeeps(Recreated(w, m), Base(w.db, Ctx(w, m)).servers, FreshId(w), NewServer(Ctx(w, m)), Ctx(w, m), m);
  }

  /**
   Exactly when a create keeps its row's names whenever it gets past the row, whatever the
   faults: when every field write the CMDB takes leaves them alone or writes them back.
   */
  lemma RowKeptExactly(w: World, m: CreateMsg)
    requires Quiet(w) && Sound(w) && Usable(m)
    ensures
      (forall tape: seq<Fault> :: GotPast(w.(tape := tape), m) ==> RowKept(w.(tape := tape), m))
      <==> SafeTags(Ctx(w, m), w.db.catalog)
  {
    hide GotPast, RowKept, SafeTags, ContextOf, Sound;
    if SafeTags(Ctx(w, m), w.db.catalog) {
      forall tape: seq<Fault> | GotPast(w.(tape := tape), m) ensures RowKept(w.(tape := tape), m) {
        SoundAnyway(w, tape);
        SafeRowKept(w.(tape := tape), m);
      }
    } else {
      RowLost(w, m);
    }
  }

  lemma SoundAnyway(w: World, tape: seq<Fault>)
    ensures Sound(w.(tape := tape)) == Sound(w) && Quiet(w.(tape := tape)) == Quiet(w)
  {
  }

  lemma RowLost(w: World, m: CreateMsg)
    requires Quiet(w) && Sound(w) && Usable(m) && !SafeTags(Ctx(w, m), w.db.catalog)
    ensures
      var v := w.(tape := Reps(ToRow(w, m)) + [Rejected(DataError)]);
      GotPast(v, m) && !RowKept(v, m)
  {
    hide GotPast, RowKept, SafeTags, ContextOf, Recreated, Keeps, RowOf, JustInserted, HasNames, Base, Sound;
    var v := w.(tape := Reps(ToRow(w, m)) + [Rejected(DataError)]);
    RowReached(w, m, [Rejected(DataError)]);
    SoundAnyway(w, v.tape);
    RecreatedReady(v, m);
    KeptIsKeeps(v, m);
    var row, kept, ctx := Recreated(v, m), Base(v.db, Ctx(v, m)).servers, Ctx(v, m);
    var cols := UnsafeLoses(row, kept, FreshId(v), NewServer(ctx), ctx, m);
    LostIsNotKept(row, kept, FreshId(v), cols, ctx, m);
  }

  // -- clean finishes ----------------------------------------------------------------------------------------

  /** The cap tenant a tag names is there. */
  predicate TenantKnown(catalog: Catalog, tags: seq<Tag>) {
    match First(tags, HasKey(CAP_TENANT_TAG))
    case None => true
    case Some(tag) => tag.value in catalog.tenants
  }

  /** The store has and takes everything this message needs: it can finish with nothing to report. */
  ghost predicate CanFinish(db: Db, ctx: Context, m: CreateMsg)
    requires m.instance.Some?
  {
    && TenantKnown(db.catalog, WithoutState(CmdbTags(m.instance.value.metadata)))
    && Accepted(db, Merge(CreateWrites(ctx, db.catalog.refs)))
    && CardsCovered(PrefixesOf(db, ctx.dcName), Cards(m))
    && Accepted(db, map["state" := Text(ctx.readyState)])
  }

  lemma TenantClean(w: World, tags: seq<Tag>)
    requires Quiet(w) && Unreported(w, FindCapTenant(w, tags))
    ensures TenantKnown(w.db.catalog, tags)
  {
    match First(tags, HasKey(CAP_TENANT_TAG))
    case None =>
    case Some(tag) =>
      ReadCall(w, SelectCapTenant(tag.value), RAISES_CAP_TENANT);
      CallReports(w, SelectCapTenant(tag.value), NoSelector, RAISES_CAP_TENANT);
      hide Call;
  }

  lemma ContextClean(w: World, m: CreateMsg)
    requires Quiet(w) && Usable(m) && Unreported(w, BuildContext(w, m))
    ensures TenantKnown(w.db.catalog, WithoutState(CmdbTags(m.instance.value.metadata)))
  {
    hide FindCapTenant, Read, CmdbTags, WithoutState, TenantKnown;
    var tags := WithoutState(CmdbTags(m.instance.value.metadata));
    CloudFound(w, m.project);
    var t := Call(w, SelectCloud(m.project), NoSelector, RAISES_CLOUD);
    hide Call;
    TenantFound(t.w, tags);
    TenantClean(t.w, tags);
  }

  lemma TakenIsAccepted(db: Db, x: FieldWrite)
    ensures Taken(x, db.catalog.refused) <==> Accepted(db, x.mutation)
  {
  }

  /** A replay that reports nothing met no value the CMDB refuses. */
  lemma {:induction false} ReplayTaken(w: World, ctx: Context, writes: seq<FieldWrite>)
    requires Quiet(w) && Unreported(w, ReplayWrites(w, ctx, writes))
    ensures forall x :: x in writes ==> Taken(x, w.db.catalog.refused)
    decreases |writes|
  {
    if writes != [] {
      var x := writes[0];
      WriteCall(w, UpdateServers(Some(ctx.hostname), Some(ctx.uuid), x.mutation), WriteOpts(x));
      CallReports(w, UpdateServers(Some(ctx.hostname), Some(ctx.uuid), x.mutation), NoSelector, WriteOpts(x));
      var t := UpdateRow(w, ctx, x.mutation, WriteOpts(x));
      ReplayErrors(t.w, ctx, writes[1..]);
      TakenIsAccepted(w.db, x);
      hide UpdateRow, Call, Taken, Accepted, Commit, Reads;
      ReplayTaken(t.w, ctx, writes[1..]);
      forall y | y in writes ensures Taken(y, w.db.catalog.refused) { if y != x { assert y in writes[1..]; } }
    }
  }

  lemma AllTaken(writes: seq<FieldWrite>, db: Db)
    requires forall x :: x in writes ==> Taken(x, db.catalog.refused)
    ensures Accepted(db, Merge(writes))
  {
    hide Merge;
    forall k | k in Merge(writes) ensures (k, Merge(writes)[k]) !in db.catalog.refused {
      var x := MergedFrom(writes, k);
      assert Taken(x, db.catalog.refused);
    }
  }

  lemma FieldsTaken(w: World, ctx: Context)
    requires Quiet(w) && Unreported(w, WriteFields(w, ctx))
    ensures Accepted(w.db, BatchOf(w, ctx))
  {
    hide CreateWrites, Merge, Taken, Accepted, UpdateRow;
    BatchNeverEmpty(ctx, w.db.catalog.refs);
    var t := BatchSent(w, ctx);
    BatchTold(w, ctx);
    if t.answer == Got(Nothing) {
      ReplayErrors(t.w, ctx, CreateWrites(ctx, w.db.catalog.refs));
      ReplayTaken(t.w, ctx, CreateWrites(ctx, w.db.catalog.refs));
      AllTaken(CreateWrites(ctx, w.db.catalog.refs), w.db);
    }
  }

  lemma BatchTold(w: World, ctx: Context)
    requires Quiet(w)
    ensures
      var t := BatchSent(w, ctx);
      && Quiet(t.w) && t.w.errors == w.errors
      && (t.answer.Got? && t.answer.reply != Nothing ==> Accepted(w.db, BatchOf(w, ctx)))
  {
    hide BatchOf, Accepted;
    var op := UpdateServers(Some(ctx.hostname), Some(ctx.uuid), BatchOf(w, ctx));
    WriteCall(w, op, Opts("batch", false, None));
    hide Call, Reads, Commit;
  }

  lemma StateTaken(w: World, ctx: Context)
    requires Quiet(w) && w.errors == []
    requires
      var t := UpdateRow(w, ctx, FinalState(ctx, []), RECORDS_STATE);
      t.answer.Got? && t.w.errors == []
    ensures Accepted(w.db, map["state" := Text(ctx.readyState)])
  {
    assert FinalState(ctx, []) == map["state" := Text(ctx.readyState)];
    WriteCall(w, UpdateServers(Some(ctx.hostname), Some(ctx.uuid), FinalState(ctx, [])), RECORDS_STATE);
    hide Call, Reads, Commit;
  }

  /** A filling that reports nothing was given nothing the store lacks or refuses. */
  lemma FillNeeds(w: World, ctx: Context, id: Id, m: CreateMsg)
    requires JustInserted(w, id) && w.errors == []
    requires
      var o := Fill(w, ctx, id, Cards(m));
      o.status.Returned? && o.w.errors == []
    ensures Accepted(w.db, BatchOf(w, ctx)) && CardsCovered(PrefixesOf(w.db, ctx.dcName), Cards(m))
    ensures Accepted(w.db, map["state" := Text(ctx.readyState)])
  {
    hide WriteFields, UpdateRow, Persist, FinalState, Cards, BatchOf, Accepted, CardsCovered, JustInserted, Sound;
    IsQuiet(w, id);
    var fields := WriteFields(w, ctx);
    FieldsReport(w, ctx);
    FieldsKeepCards(w, ctx, id);
    IsQuiet(fields.w, id);
    var net := Persist(fields.w, ctx, id, Cards(m));
    CardsReport(fields.w, ctx, id, m);
    CardsLeaveServers(fields.w, ctx, id, m);
    FinalReports(net.w, ctx);
    assert fields.w.errors == [] && net.w.errors == [];
    FieldsTaken(w, ctx);
    CardsAreCovered(fields.w, ctx, id, m);
    StateTaken(net.w, ctx);
    SamePrefixes(fields.w.db, w.db, ctx.dcName);
    SameAccepted(w.db, net.w.db);
  }

  lemma CardsReport(w: World, ctx: Context, id: Id, m: CreateMsg)
    ensures w.errors <= Persist(w, ctx, id, Cards(m)).w.errors
  {
    hide PersistCards, Cards, BondTaken;
    CardsErrors(w, ctx.dcName, id, Cards(m), BondTaken(Cards(m)), {});
  }

  lemma CardsAreCovered(w: World, ctx: Context, id: Id, m: CreateMsg)
    requires Quiet(w) && Unreported(w, Persist(w, ctx, id, Cards(m)))
    ensures CardsCovered(PrefixesOf(w.db, ctx.dcName), Cards(m))
  {
    hide PersistCards, Cards, BondTaken, CardsCovered, PrefixesOf;
    CleanCards(w, ctx.dcName, id, Cards(m), BondTaken(Cards(m)), {});
  }

  /** No create finishes clean unless the store has and takes what it needs. */
  lemma CleanNeeds(w: World, m: CreateMsg)
    requires Quiet(w) && Sound(w) && Usable(m) && Clean(w, m)
    ensures CanFinish(w.db, Ctx(w, m), m)
  {
    hide BuildContext, Recreate, Fill, Cards, ContextOf, Accepted, CardsCovered, TenantKnown, CmdbTags, WithoutState, CreateWrites, Merge, JustInserted, Base, RowOf, Sound;
    var w0, ctx := w.(errors := []), Ctx(w, m);
    var c := BuildContext(w0, m);
    ContextBuilt(w0, m);
    RecreatedReady(w, m);
    var row := Recreated(w, m);
    RowErrors(w, m);
    FillReports(row, ctx, FreshId(w), Cards(m));
    assert c.w.errors == [] && row.errors == [];
    ContextClean(w0, m);
    FillNeeds(row, ctx, FreshId(w), m);
    SamePrefixes(row.db, w.db, ctx.dcName);
    SameAccepted(w.db, row.db);
  }

  lemma RowErrors(w: World, m: CreateMsg)
    requires Quiet(w) && Sound(w) && Usable(m) && GotPast(w, m)
    ensures Recreated(w, m).errors == BuildContext(w.(errors := []), m).w.errors
  {
    hide BuildContext, Recreate, ContextOf;
    ContextBuilt(w.(errors := []), m);
    ContextHostname(w.db.catalog, m);
    RowRecreated(BuildContext(w.(errors := []), m).w, Ctx(w, m));
    hide Cleared, Removing, Inserted;
  }

  // -- a clean finish that is not the plan ---------------------------------------------------------------------

  /** The batch of a store that takes it, when it replies. */
  lemma BatchPads(w: World, ctx: Context, rest: seq<Fault>)
    requires Quiet(w) && w.tape == [] && Accepted(w.db, BatchOf(w, ctx))
    ensures
      var s := WriteFields(w, ctx);
      && s == Stage.Fine(BatchSent(w, ctx).w, ()) && SmoothOn(w, s.w)
      && WriteFields(After(w, 1, rest), ctx) == RetapeStage(s, rest)
  {
    hide CreateWrites, Merge;
    BatchNeverEmpty(ctx, w.db.catalog.refs);
    var op := UpdateServers(Some(ctx.hostname), Some(ctx.uuid), BatchOf(w, ctx));
    CallPads(w, op, NoSelector, Opts("batch", false, None), rest);
    hide Call, Accepted;
    assert Accepts(Met(w), op);
    assert Reads(Met(w), op, FreshId(w)) != Nothing;
    hide Reads, Commit, Met;
  }

  /** Filling in a row on this tape: the batch replies, the cards finish on what is left, and so does the state. */
  lemma FillOn(w: World, ctx: Context, id: Id, m: CreateMsg, later: seq<Fault>)
    requires Quiet(w) && w.tape == [] && w.errors == [] && Accepted(w.db, BatchOf(w, ctx))
    requires Accepted(w.db, map["state" := Text(ctx.readyState)])
    requires Smoothly(WriteFields(w, ctx).w, Persist(WriteFields(w, ctx).w.(tape := later), ctx, id, Cards(m)))
    ensures
      var o := Fill(After(w, 1, later), ctx, id, Cards(m));
      var net := Persist(WriteFields(w, ctx).w.(tape := later), ctx, id, Cards(m));
      o.status.Returned? && o.w.errors == [] && o.w.db.endpoints == net.w.db.endpoints && o.w.db.ips == net.w.db.ips
  {
    hide WriteFields, Persist, Cards, UpdateRow, BatchOf, Accepted;
    BatchPads(w, ctx, later);
    var fields := WriteFields(w, ctx);
    var net := Persist(fields.w.(tape := later), ctx, id, Cards(m));
    assert FinalState(ctx, []) == map["state" := Text(ctx.readyState)];
    hide FinalState;
    SameAccepted(w.db, net.w.db);
    NoFaultUpdate(net.w, ctx, FinalState(ctx, []), RECORDS_STATE);
    UpdateLeavesCards(net.w, ctx, FinalState(ctx, []));
  }

  lemma UpdateLeavesCards(w: World, ctx: Context, m: Cols)
    requires Quiet(w)
    ensures
      var t := UpdateRow(w, ctx, m, RECORDS_STATE);
      t.w.db.endpoints == w.db.endpoints && t.w.db.ips == w.db.ips
  {
    WriteCall(w, UpdateServers(Some(ctx.hostname), Some(ctx.uuid), m), RECORDS_STATE);
    hide Call, Reads;
  }

  /** The row world of a message that can finish has nothing reported. */
  lemma RowUnreported(w: World, m: CreateMsg)
    requires Quiet(w) && Sound(w) && Usable(m) && TenantKnown(w.db.catalog, WithoutState(CmdbTags(m.instance.value.metadata)))
    ensures RowWorld(w, m).errors == []
  {
    hide BuildContext, Recreate, ContextOf, CmdbTags, WithoutState, Recreated, GotPast, Sound;
    var v := w.(tape := []);
    RowReached(w, m, []);
    SoundAnyway(w, []);
    RowErrors(v, m);
    ContextUnreported(v.(errors := []), m);
  }

  lemma ContextUnreported(w: World, m: CreateMsg)
    requires Quiet(w) && w.tape == [] && w.errors == [] && Usable(m)
    requires TenantKnown(w.db.catalog, WithoutState(CmdbTags(m.instance.value.metadata)))
    ensures BuildContext(w, m).w.errors == []
  {
    hide Read, CmdbTags, WithoutState, Met, Commit;
    CallPads(w, SelectCloud(m.project), NoSelector, RAISES_CLOUD, []);
    var t := Call(w, SelectCloud(m.project), NoSelector, RAISES_CLOUD);
    var tags := WithoutState(CmdbTags(m.instance.value.metadata));
    hide Call, FindCapTenant, TenantKnown;
    TenantUnreported(t.w, tags);
  }

  lemma TenantUnreported(w: World, tags: seq<Tag>)
    requires Quiet(w) && w.tape == [] && w.errors == [] && TenantKnown(w.db.catalog, tags)
    ensures FindCapTenant(w, tags).w.errors == []
  {
    hide Met, Commit, Extends;
    match First(tags, HasKey(CAP_TENANT_TAG))
    case None => hide Call;
    case Some(tag) =>
      CallPads(w, SelectCapTenant(tag.value), NoSelector, RAISES_CAP_TENANT, []);
      hide Call;
  }

  /** A finish of this message that reports nothing is the plan. */
  ghost predicate AsOneRun(w: World, m: CreateMsg)
    requires Usable(m)
  {
    Clean(w, m) ==> Finished(w.db, CreateServer(w, m).w.db, Ctx(w, m), m, FreshId(w))
  }

  /** Cards that can be taken for each other, on a store that has and takes all the rest. */
  lemma MistakenFinish(w: World, m: CreateMsg) returns (fates: seq<Fault>)
    requires Quiet(w) && Sound(w) && Usable(m) && CanFinish(w.db, Ctx(w, m), m) && !Unmistakable(w, Cards(m))
    ensures !AsOneRun(w.(tape := fates), m)
  {
    hide GotPast, Recreated, ContextOf, Cards, JustInserted, Base, RowOf, Fill, WriteFields, Persist, Accepted, CardsCovered, TenantKnown, DistinctCards, CreateWrites, Merge, Live, Planned, Sound, CreateServer;
    var ctx, row, id := Ctx(w, m), RowWorld(w, m), FreshId(w);
    RowReached(w, m, []);
    SoundAnyway(w, []);
    RecreatedReady(w.(tape := []), m);
    RowUnreported(w, m);
    SameAccepted(w.db, row.db);
    BatchPads(row, ctx, []) by { IsQuiet(row, id); }
    var fields := WriteFields(row, ctx);
    FieldsKeepCards(row, ctx, id);
    InsertedBorn(fields.w, id);
    assert fields.w.(tape := []) == fields.w;
    SamePrefixes(fields.w.db, w.db, ctx.dcName);
    var later := MistakenTape(fields.w, ctx, id, m);
    fates := Reps(ToRow(w, m)) + (Reps(1) + later);
    IsQuiet(row, id);
    FillOn(row, ctx, id, m, later);
    RowReached(w, m, Reps(1) + later);
    SoundAnyway(w, fates);
    RecreatedReady(w.(tape := fates), m);
    var net := Persist(fields.w.(tape := later), ctx, id, Cards(m));
    var o := CreateServer(w.(tape := fates), m);
    SameLive(net.w.db, o.w.db, id);
    SamePlan(w.db, fields.w.db, ctx, m);
  }

  /**
   Exactly when all clean finishes of a create leave the same rows, whatever the faults: with
   one attempt per request, or with distinct cards, or when the store lacks or refuses
   something the message needs, so that it never finishes clean.
   */
  lemma FinishesExactly(w: World, m: CreateMsg)
    requires Quiet(w) && Sound(w) && Usable(m) && SafeTags(Ctx(w, m), w.db.catalog)
    ensures
      (forall tape: seq<Fault> :: AsOneRun(w.(tape := tape), m))
      <==> Unmistakable(w, Cards(m)) || !CanFinish(w.db, Ctx(w, m), m)
  {
    hide AsOneRun, Cards, DistinctCards, CanFinish, SafeTags, ContextOf, Sound;
    if Unmistakable(w, Cards(m)) || !CanFinish(w.db, Ctx(w, m), m) {
      forall tape: seq<Fault> ensures AsOneRun(w.(tape := tape), m) {
        SoundAnyway(w, tape);
        OneRun(w.(tape := tape), m);
      }
    } else {
      var tape := MistakenFinish(w, m);
    }
  }

  lemma OneRun(w: World, m: CreateMsg)
    requires Quiet(w) && Sound(w) && Usable(m) && SafeTags(Ctx(w, m), w.db.catalog)
    requires Unmistakable(w, Cards(m)) || !CanFinish(w.db, Ctx(w, m), m)
    ensures AsOneRun(w, m)
  {
    hide Clean, Finished, Cards, Unmistakable, CanFinish, SafeTags, ContextOf, Sound;
    if Clean(w, m) {
      CleanNeeds(w, m);
      CreateClean(w, m);
    }
  }
}
