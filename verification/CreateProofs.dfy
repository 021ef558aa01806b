/** One create message from end to end: what a finished run guarantees about the server it wrote. */
module CreateProofs {
  import opened Basics
  import opened BondNames
  import opened Cmdb
  import opened Planning
  import opened PlanningProofs
  import opened Retry
  import opened RetryProofs
  import opened StoreFacts
  import opened Attachments
  import opened Tags
  import opened TagsProofs
  import opened Create
  import opened RecreateProofs
  import opened FieldProofs
  import opened Invariants
  import opened NetProofs

  // -- reading the message changes nothing -----------------------------------------------------

  ghost predicate OnlyRead(w: World, w': World) {
    w'.db == w.db && w'.minted == w.minted && w'.session == w.session && Quiet(w') && w.errors <= w'.errors
  }

  /** The tenant the tags name in this store. */
  function TenantOf(catalog: Catalog, tags: seq<Tag>): Option<CapTenant> {
    match First(tags, HasKey(CAP_TENANT_TAG))
    case None => None
    case Some(tag) => if tag.value in catalog.tenants then Some(catalog.tenants[tag.value]) else None
  }

  function CloudOf(catalog: Catalog, project: string): Option<Cloud> {
    if project in catalog.clouds then Some(catalog.clouds[project]) else None
  }

  /** The context a store makes of a message. */
  function ContextOf(catalog: Catalog, m: CreateMsg, i: Instance): (ctx: Context)
    requires i.name.Some? && i.id.Some?
  {
    Read(m, i, i.name.value, i.id.value, CloudOf(catalog, m.project), TenantOf(catalog, WithoutState(CmdbTags(i.metadata))))
  }

  lemma TenantFound(w: World, tags: seq<Tag>)
    requires Quiet(w)
    ensures
      var s := FindCapTenant(w, tags);
      OnlyRead(w, s.w) && (s.Fine? ==> s.value == TenantOf(w.db.catalog, tags))
  {
    match First(tags, HasKey(CAP_TENANT_TAG))
    case None =>
    case Some(tag) =>
      ReadCall(w, SelectCapTenant(tag.value), RAISES_CAP_TENANT);
      hide Call;
  }

  lemma CloudFound(w: World, project: string)
    requires Quiet(w)
    ensures
      var t := Call(w, SelectCloud(project), NoSelector, RAISES_CLOUD);
      && OnlyRead(w, t.w)
      && (t.answer.Got? ==> (if t.answer.reply.CloudRow? then Some(t.answer.reply.cloud) else None) == CloudOf(w.db.catalog, project))
  {
    ReadCall(w, SelectCloud(project), RAISES_CLOUD);
    hide Call;
  }

  /** Building the context is reading: under any faults it is the one context of this store, or it raises. */
  lemma ContextBuilt(w: World, m: CreateMsg)
    requires Quiet(w)
    ensures
      var s := BuildContext(w, m);
      && OnlyRead(w, s.w)
      && (s.Fine? && s.value.Some? ==>
            && m.instance.Some? && m.instance.value.name.Some? && m.instance.value.id.Some?
            && s.value.value == ContextOf(w.db.catalog, m, m.instance.value))
      && (s.Fine? && s.value.None? ==> m.instance.None?)
  {
    hide Call, FindCapTenant, KeptTags, CmdbTags, IsK8sNode, TenantOf, CloudOf, Read, WithoutState;
    if m.instance.Some? && m.instance.value.name.Some? && m.instance.value.id.Some? {
      CloudFound(w, m.project);
      var t := Call(w, SelectCloud(m.project), NoSelector, RAISES_CLOUD);
      if t.answer.Got? {
        TenantFound(t.w, WithoutState(CmdbTags(m.instance.value.metadata)));
      }
    }
  }

  /** A context keeps only tags this message carries, and whitelisted ones unless the message is trusted. */
  lemma ContextTags(catalog: Catalog, m: CreateMsg, i: Instance)
    requires i.name.Some? && i.id.Some?
    ensures
      var ctx := ContextOf(catalog, m, i);
      ctx.tags == KeptTags(CmdbTags(i.metadata), ctx.capTenant.Some? || IsK8sNode(i.metadata))
  {
  }

  // -- filling in one server -----------------------------------------------------------------------

  /** No card refers to this server yet. */
  ghost predicate NoCards(db: Db, server: Id) { forall e :: e in db.endpoints ==> e.serverId != server }

  /** Every field write the CMDB takes leaves the row its hostname and uuid: always so when the whitelist applies. */
  ghost predicate SafeTags(ctx: Context, catalog: Catalog) {
    SafeWrites(CreateWrites(ctx, catalog.refs), ctx, catalog.refused)
  }

  /** No field write names the state column. */
  ghost predicate StateFree(ctx: Context, refs: set<string>) {
    forall x :: x in CreateWrites(ctx, refs) ==> "state" !in x.mutation
  }

  lemma StateIsFree(catalog: Catalog, m: CreateMsg, i: Instance)
    requires i.name.Some? && i.id.Some?
    ensures StateFree(ContextOf(catalog, m, i), catalog.refs)
  {
    ContextTags(catalog, m, i);
    var ctx := ContextOf(catalog, m, i);
    WritesKeepOut(ctx, catalog.refs, CmdbTags(i.metadata), ctx.capTenant.Some? || IsK8sNode(i.metadata));
  }

  /** Only the row's columns changed, and only its own cards and addresses were added. */
  ghost predicate Filling(w: World, w': World, server: Id) {
    && Quiet(w') && Sound(w') && Tidier(w.db, w'.db) && w'.session == w.session && w.minted <= w'.minted && w.errors <= w'.errors
    && w'.db.rails == w.db.rails && w'.db.catalog == w.db.catalog
    && w.db.endpoints <= w'.db.endpoints && w.db.ips <= w'.db.ips
    && (forall i :: |w.db.endpoints| <= i < |w'.db.endpoints| ==> w'.db.endpoints[i].serverId == server)
    && (forall i :: |w.db.ips| <= i < |w'.db.ips| ==> CardOn(w'.db, server, w'.db.ips[i].endpointId))
  }

  /** The whole plan is on the server. */
  ghost predicate Complete(db: Db, server: Id, cols: Cols, ctx: Context, cards: seq<Card>) {
    && Agrees(cols, Merge(CreateWrites(ctx, db.catalog.refs)))
    && "state" in cols && cols["state"] == Text(ctx.readyState)
    && forall c, a :: c in cards && a in c.addresses ==> Placed(db, server, a)
  }

  /** The row is in error with every listed failure in its details, or writing even that was refused and recorded. */
  ghost predicate MarkedError(cols: Cols, errors: seq<Entry>) {
    || (&& "state" in cols && cols["state"] == Text(ERROR_STATE)
        && "status_details" in cols && cols["status_details"] == Text(StatusDetails(errors)))
    || (errors != [] && errors[|errors| - 1].field == "state" && errors[|errors| - 1].mark)
  }

  ghost predicate FillDone(w: World, o: Outcome, kept: seq<Server>, id: Id, cols: Cols, ctx: Context, cards: seq<Card>) {
    && Filling(w, o.w, id) && RowOf(o.w.db, kept, id, cols, ctx)
    && (o.status.Returned? ==>
          if Failed(o.w.errors) then MarkedError(cols, o.w.errors) else Complete(o.w.db, id, cols, ctx, cards))
  }

  lemma FailedMeans(errors: seq<Entry>)
    ensures Failed(errors) <==> exists i :: 0 <= i < |errors| && errors[i].mark
  {
    if Failed(errors) {
      var e := First(errors, Marks()).value;
      var i :| 0 <= i < |errors| && errors[i] == e;
    }
    if i :| 0 <= i < |errors| && errors[i].mark { assert errors[i] in errors; }
  }

  lemma FailedGrows(a: seq<Entry>, b: seq<Entry>)
    requires a <= b
    ensures Failed(a) ==> Failed(b)
    ensures NewMark(a, b) ==> Failed(b)
  {
    FailedMeans(a);
    FailedMeans(b);
  }

  lemma MarkedFails(errors: seq<Entry>, e: Entry)
    requires e.mark
    ensures Failed(errors + [e])
  {
    FailedMeans(errors + [e]);
    assert (errors + [e])[|errors|].mark;
  }

  /** The cards of a bare server, before anything else is written on it. */
  lemma BareServer(db: Db, server: Id)
    requires NoCards(db, server)
    ensures UsedKnown(db, server, {}) && NamedWithin(db, server, [])
  {
  }

  lemma PlannedNames(m: CreateMsg)
    ensures NamesAhead(EndpointNames(Cards(m), BondTaken(Cards(m))), [])
  {
    if m.instance.Some? { EndpointNamesDistinct(m.instance.value.networks, m.ports); }
    hide EndpointNames, Cards, BondTaken;
  }

  lemma CardOnSame(db: Db, db': Db)
    requires db'.endpoints == db.endpoints
    ensures forall s, c :: CardOn(db', s, c) == CardOn(db, s, c)
  {
  }

  /** Only this row's columns changed: keys stay distinct and every server tidy. */
  lemma RowsSound(w: World, w': World, kept: seq<Server>, id: Id, cols: Cols, cols': Cols, ctx: Context)
    requires RowOf(w.db, kept, id, cols, ctx) && RowOf(w'.db, kept, id, cols', ctx) && SameCards(w.db, w'.db)
    requires w'.minted == w.minted && w'.session == w.session && Sound(w)
    ensures Sound(w') && Tidier(w.db, w'.db)
  {
    hide NamesUnique, KindsUnique;
    TidyServers(w.db, w'.db);
    forall s | s in w'.db.servers ensures exists t :: t in w.db.servers && t.id == s.id {
      if s in kept { assert s in w.db.servers; } else { assert Server(id, cols) in w.db.servers; }
    }
    assert forall i :: 0 <= i < |w'.db.servers| ==> w'.db.servers[i].id == w.db.servers[i].id;
  }

  // -- the three stages of Fill -------------------------------------------------------------------

  /** After the fields: only the row's columns differ. */
  ghost predicate FieldsWritten(w: World, s: Stage<()>, kept: seq<Server>, id: Id, cols: Cols, ctx: Context) {
    && Quiet(s.w) && Sound(s.w) && Tidier(w.db, s.w.db) && s.w.session == w.session && s.w.minted == w.minted
    && w.errors <= s.w.errors && SameCards(w.db, s.w.db) && RowOf(s.w.db, kept, id, cols, ctx)
    && (s.Fine? && !NewMark(w.errors, s.w.errors) ==> Agrees(cols, Merge(CreateWrites(ctx, w.db.catalog.refs))))
  }

  lemma FieldsPart(w: World, kept: seq<Server>, id: Id, cols: Cols, ctx: Context) returns (cols': Cols)
    requires Quiet(w) && Sound(w) && RowOf(w.db, kept, id, cols, ctx) && SafeTags(ctx, w.db.catalog)
    ensures FieldsWritten(w, WriteFields(w, ctx), kept, id, cols', ctx)
  {
    hide Sound, NamesUnique, KindsUnique, CreateWrites, RowOf, NewMark, Agrees, Merge;
    cols' := FieldsStage(w, kept, id, cols, ctx);
    RowsSound(w, WriteFields(w, ctx).w, kept, id, cols, cols', ctx);
  }

  lemma CardsPart(w: World, ctx: Context, server: Id, m: CreateMsg)
    requires Quiet(w) && Sound(w) && Born(server, w.session, w.minted) && NoCards(w.db, server)
    ensures CardsDone(w, Persist(w, ctx, server, Cards(m)), server, Cards(m))
  {
    BareServer(w.db, server);
    PlannedNames(m);
    hide Sound, NamesUnique, KindsUnique, CardsDone, PersistCards, NamesAhead, EndpointNames, BondTaken, Cards, UsedKnown, NamedWithin;
    CardsStage(w, ctx.dcName, server, Cards(m), BondTaken(Cards(m)), {}, []);
  }

  /** The final write, given what the earlier stages left. */
  ghost predicate Closed(w: World, t: Turn, kept: seq<Server>, id: Id, cols: Cols, cols': Cols, ctx: Context) {
    && Quiet(t.w) && Sound(t.w) && Tidier(w.db, t.w.db) && t.w.session == w.session && t.w.minted == w.minted
    && w.errors <= t.w.errors && SameCards(w.db, t.w.db) && RowOf(t.w.db, kept, id, cols', ctx)
    && (t.answer.Got? ==>
          if Failed(t.w.errors) then MarkedError(cols', t.w.errors)
          else cols' == cols + map["state" := Text(ctx.readyState)])
  }

  lemma FinalWritten(w: World, t: Turn, kept: seq<Server>, id: Id, cols: Cols, ctx: Context) returns (cols': Cols)
    requires Updated(w, t, kept, id, cols, ctx, FinalState(ctx, w.errors), RECORDS_STATE)
    ensures RowOf(t.w.db, kept, id, cols', ctx) && w.errors <= t.w.errors
    ensures t.answer.Got? ==>
      if Failed(t.w.errors) then MarkedError(cols', t.w.errors)
      else cols' == cols + map["state" := Text(ctx.readyState)]
  {
    var m := FinalState(ctx, w.errors);
    cols' := if RowOf(t.w.db, kept, id, cols + m, ctx) then cols + m else cols;
    hide RowOf, SameCards, Failed, StatusDetails;
    if t.answer.Got? {
      FailedGrows(w.errors, t.w.errors);
      if t.w.errors != w.errors {
        MarkedFails(w.errors, Entry("state", Message("state"), true, true));
      }
    }
  }

  lemma StatePart(w: World, kept: seq<Server>, id: Id, cols: Cols, ctx: Context) returns (cols': Cols)
    requires Quiet(w) && Sound(w) && RowOf(w.db, kept, id, cols, ctx)
    ensures Closed(w, UpdateRow(w, ctx, FinalState(ctx, w.errors), RECORDS_STATE), kept, id, cols, cols', ctx)
  {
    var t := UpdateRow(w, ctx, FinalState(ctx, w.errors), RECORDS_STATE);
    hide Sound, NamesUnique, KindsUnique, RowOf, Failed, MarkedError;
    UpdateRowCall(w, kept, id, cols, ctx, FinalState(ctx, w.errors), RECORDS_STATE);
    cols' := FinalWritten(w, t, kept, id, cols, ctx);
    hide FinalState;
    RowsSound(w, t.w, kept, id, cols, cols', ctx);
  }

  // -- Fill ------------------------------------------------------------------------------------------

  lemma FillingFields(w: World, s: Stage<()>, kept: seq<Server>, id: Id, cols: Cols, ctx: Context)
    requires FieldsWritten(w, s, kept, id, cols, ctx)
    ensures Filling(w, s.w, id)
  {
  }

  lemma FillingCards(a: World, b: World, c: World, id: Id, cards: seq<Card>, s: Stage<()>)
    requires Filling(a, b, id) && b.db.ips == a.db.ips && b.db.endpoints == a.db.endpoints
    requires CardsDone(b, s, id, cards) && s.w == c
    ensures Filling(a, c, id) && c.db.servers == b.db.servers
  {
  }

  lemma FillingState(a: World, b: World, c: World, id: Id)
    requires Filling(a, b, id) && SameCards(b.db, c.db) && Quiet(c) && Sound(c) && Tidier(b.db, c.db)
    requires c.session == b.session && c.minted == b.minted && b.errors <= c.errors
    ensures Filling(a, c, id)
  {
    CardOnSame(b.db, c.db);
    hide CardOn, Sound, NamesUnique, KindsUnique;
  }

  lemma SameRow(db: Db, db': Db, kept: seq<Server>, id: Id, cols: Cols, ctx: Context)
    requires RowOf(db, kept, id, cols, ctx) && db'.servers == db.servers
    ensures RowOf(db', kept, id, cols, ctx)
  {
  }

  lemma AgreesState(cols: Cols, m: Cols, value: Value)
    requires Agrees(cols, m) && "state" !in m
    ensures Agrees(cols + map["state" := value], m)
  {
  }

  lemma {:induction false} MergeKeepsState(writes: seq<FieldWrite>)
    requires forall x :: x in writes ==> "state" !in x.mutation
    ensures "state" !in Merge(writes)
  {
    if writes != [] {
      assert writes[|writes| - 1] in writes;
      MergeKeepsState(writes[..|writes| - 1]);
    }
  }

  /** A finished run without a state-error failure has the whole plan on the server. */
  lemma FillComplete(
    w: World, fields: Stage<()>, net: Stage<()>, t: Turn, kept: seq<Server>, id: Id, cols: Cols, cols': Cols, ctx: Context, cards: seq<Card>)
    requires FieldsWritten(w, fields, kept, id, cols, ctx) && fields.Fine?
    requires CardsDone(fields.w, net, id, cards) && net.Fine?
    requires Closed(net.w, t, kept, id, cols, cols', ctx)
    requires StateFree(ctx, w.db.catalog.refs) && !Failed(t.w.errors) && t.answer.Got?
    ensures Complete(t.w.db, id, cols', ctx, cards)
  {
    hide CreateWrites, Merge, Failed, NamesUnique, KindsUnique, Sound, CardOn, RowOf, NewMark, Filter;
    FailedGrows(net.w.errors, t.w.errors);
    FailedGrows(fields.w.errors, net.w.errors);
    FailedGrows(w.errors, fields.w.errors);
    CardOnSame(net.w.db, t.w.db);
    var refs := w.db.catalog.refs;
    MergeKeepsState(CreateWrites(ctx, refs));
    AgreesState(cols, Merge(CreateWrites(ctx, refs)), Text(ctx.readyState));
    hide Agrees;
    assert forall a :: Placed(net.w.db, id, a) ==> Placed(t.w.db, id, a);
  }

  /**
   A server that was just inserted, filled in under arbitrary faults: only its own
   columns, cards and addresses change; when the run returns, either everything in
   the message is on it and it is in its ready state, or it is marked as in error.
   */
  lemma ServerFilled(w: World, kept: seq<Server>, id: Id, cols: Cols, ctx: Context, m: CreateMsg) returns (cols': Cols)
    requires Quiet(w) && Sound(w) && RowOf(w.db, kept, id, cols, ctx) && SafeTags(ctx, w.db.catalog)
    requires Born(id, w.session, w.minted) && NoCards(w.db, id) && StateFree(ctx, w.db.catalog.refs)
    ensures FillDone(w, Fill(w, ctx, id, Cards(m)), kept, id, cols', ctx, Cards(m))
  {
    hide Sound, NamesUnique, KindsUnique, RowOf, FieldsWritten, WriteFields, Filling, Persist, Cards, CardsDone, UpdateRow, Closed, Complete, MarkedError, Failed, SafeTags, StateFree;
    var cards := Cards(m);
    var fields := WriteFields(w, ctx);
    cols' := FieldsPart(w, kept, id, cols, ctx);
    FillingFields(w, fields, kept, id, cols', ctx);
    FieldsKeep(w, fields, kept, id, cols', ctx);
    if fields.Fine? {
      var net := Persist(fields.w, ctx, id, cards);
      CardsPart(fields.w, ctx, id, m);
      FillingCards(w, fields.w, net.w, id, cards, net);
      SameRow(fields.w.db, net.w.db, kept, id, cols', ctx);
      if net.Fine? {
        FillingKeeps(w, net.w, id);
        var before := cols';
        cols' := StatePart(net.w, kept, id, before, ctx);
        var t := UpdateRow(net.w, ctx, FinalState(ctx, net.w.errors), RECORDS_STATE);
        ClosedKeeps(net.w, t, kept, id, before, cols', ctx);
        FillingState(w, net.w, t.w, id);
        if t.answer.Got? && !Failed(t.w.errors) {
          FillComplete(w, fields, net, t, kept, id, before, cols', ctx, cards);
        }
        ClosedStatus(net.w, t, kept, id, before, cols', ctx);
      }
    }
  }

  lemma FieldsKeep(w: World, s: Stage<()>, kept: seq<Server>, id: Id, cols: Cols, ctx: Context)
    requires FieldsWritten(w, s, kept, id, cols, ctx) && Born(id, w.session, w.minted) && NoCards(w.db, id)
    ensures Quiet(s.w) && Sound(s.w) && Tidier(w.db, s.w.db) && Born(id, s.w.session, s.w.minted) && NoCards(s.w.db, id)
    ensures s.w.db.endpoints == w.db.endpoints && s.w.db.ips == w.db.ips && RowOf(s.w.db, kept, id, cols, ctx)
  {
  }

  lemma FillingKeeps(w: World, w': World, id: Id)
    requires Filling(w, w', id)
    ensures Quiet(w') && Sound(w') && Tidier(w.db, w'.db)
  {
  }

  lemma ClosedKeeps(w: World, t: Turn, kept: seq<Server>, id: Id, cols: Cols, cols': Cols, ctx: Context)
    requires Closed(w, t, kept, id, cols, cols', ctx)
    ensures Quiet(t.w) && Sound(t.w) && Tidier(w.db, t.w.db) && t.w.session == w.session && t.w.minted == w.minted
    ensures w.errors <= t.w.errors && SameCards(w.db, t.w.db) && RowOf(t.w.db, kept, id, cols', ctx)
  {
  }

  lemma ClosedStatus(w: World, t: Turn, kept: seq<Server>, id: Id, cols: Cols, cols': Cols, ctx: Context)
    requires Closed(w, t, kept, id, cols, cols', ctx)
    ensures t.answer.Got? && Failed(t.w.errors) ==> MarkedError(cols', t.w.errors)
  {
  }

  // -- one create message ------------------------------------------------------------------------------

  /** The message names its instance. */
  predicate Readable(m: CreateMsg) { m.instance.Some? && m.instance.value.name.Some? && m.instance.value.id.Some? }

  /** The message names its instance, with a hostname that can be looked for. */
  predicate Usable(m: CreateMsg) { Readable(m) && m.instance.value.name.value != "" }

  function Ctx(w: World, m: CreateMsg): Context
    requires Readable(m)
  {
    ContextOf(w.db.catalog, m, m.instance.value)
  }

  /** What is left once every row of this hostname or uuid and their rails are gone. */
  function Base(db: Db, ctx: Context): Db { Cleared(db, NonEmpty(ctx.hostname), NonEmpty(ctx.uuid)) }

  lemma BaseHasNone(db: Db, ctx: Context)
    requires ctx.hostname != ""
    ensures forall s :: s in Base(db, ctx).servers ==> !Is(s, "hostname", ctx.hostname)
    ensures forall s :: s in Base(db, ctx).servers ==> !AnyServer(s, NonEmpty(ctx.hostname), NonEmpty(ctx.uuid))
  {
    ClearedHasNone(db, NonEmpty(ctx.hostname), NonEmpty(ctx.uuid));
  }

  /** The message stopped before its row was back: rows only went, and only those it was after. */
  ghost predicate Stopped(w: World, w': World, ctx: Context) {
    && w'.db.endpoints == w.db.endpoints && w'.db.ips == w.db.ips
    && (|| (forall s :: s in w'.db.servers ==> s in w.db.servers)
        || (w'.db.servers == Base(w.db, ctx).servers + [Server(FreshId(w), NewServer(ctx))]))
  }

  /**
   The row is back: it is the only one of this hostname or uuid, no rail of a removed
   row is left, and of the cards and addresses only its own were added.
   */
  ghost predicate Rewritten(w: World, o: Outcome, ctx: Context, cols: Cols, cards: seq<Card>) {
    var id := FreshId(w);
    && RowOf(o.w.db, Base(w.db, ctx).servers, id, cols, ctx)
    && o.w.db.rails == Base(w.db, ctx).rails
    && w.db.endpoints <= o.w.db.endpoints && w.db.ips <= o.w.db.ips
    && (forall i :: |w.db.endpoints| <= i < |o.w.db.endpoints| ==> o.w.db.endpoints[i].serverId == id)
    && (forall i :: |w.db.ips| <= i < |o.w.db.ips| ==> CardOn(o.w.db, id, o.w.db.ips[i].endpointId))
    && (o.status.Returned? ==>
          if Failed(o.w.errors) then MarkedError(cols, o.w.errors) else Complete(o.w.db, id, cols, ctx, cards))
  }

  /** Kept by every attempt, whatever cut it off: what removal would leave. */
  ghost predicate Resumable(w: World, w': World, ctx: Context) {
    && Quiet(w') && Sound(w') && Tidier(w.db, w'.db) && w'.session == w.session && w'.db.catalog == w.db.catalog
    && Base(w'.db, ctx).servers == Base(w.db, ctx).servers
    && Base(w'.db, ctx).rails == Base(w.db, ctx).rails
  }

  /** Clearing a store that holds only this message's row leaves the other rows. */
  lemma BaseOfRow(db: Db, kept: seq<Server>, id: Id, cols: Cols, ctx: Context)
    requires RowOf(db, kept, id, cols, ctx) && ctx.hostname != ""
    requires forall s :: s in kept ==> !AnyServer(s, NonEmpty(ctx.hostname), NonEmpty(ctx.uuid))
    requires forall r :: r in db.rails ==> r.serverId != id
    ensures Base(db, ctx).servers == kept && Base(db, ctx).rails == db.rails
  {
    var h, u := NonEmpty(ctx.hostname), NonEmpty(ctx.uuid);
    var row := Server(id, cols);
    FilterSnoc(kept, row, NoneOf(h, u));
    FilterAll(kept, NoneOf(h, u));
    assert AnyServer(row, h, u);
    forall k | k in Targets(db, h, u) ensures k == id {
      var s :| s in db.servers && AnyServer(s, h, u) && s.id == k;
      assert s == row || s in kept;
    }
    FilterAll(db.rails, NotUnder(Targets(db, h, u)));
  }

  /** The state a fresh row starts its filling in. */
  lemma RowReady(w: World, w': World, ctx: Context)
    requires Sound(w) && ctx.hostname != ""
    requires w'.db == Inserted(Base(w.db, ctx), ctx, FreshId(w)) && w'.minted == w.minted + 1 && w'.session == w.session
    ensures Sound(w') && Tidier(w.db, w'.db) && Born(FreshId(w), w'.session, w'.minted) && NoCards(w'.db, FreshId(w))
    ensures RowOf(w'.db, Base(w.db, ctx).servers, FreshId(w), NewServer(ctx), ctx)
    ensures forall r :: r in w'.db.rails ==> r.serverId != FreshId(w)
  {
    BaseHasNone(w.db, ctx);
    TidyServers(w.db, w'.db);
    FilterKeyed(w.db.servers, NoneOf(NonEmpty(ctx.hostname), NonEmpty(ctx.uuid)), (s: Server) => s.id);
    FilterKeyed(w.db.rails, NotUnder(Targets(w.db, NonEmpty(ctx.hostname), NonEmpty(ctx.uuid))), (r: Rail) => r.id);
    hide NamesUnique, KindsUnique, Targets, AnyServer;
  }

  /** However far the row's re-creation got, the message can be run again. */
  lemma StoppedResumes(w: World, ctx: Context, s: Stage<Id>)
    requires Sound(w) && ctx.hostname != "" && Recreating(w, ctx, s)
    requires s.w.session == w.session && w.minted <= s.w.minted
    ensures Resumable(w, s.w, ctx) && Stopped(w, s.w, ctx)
  {
    hide Filter, Keyed;
    var h, u := NonEmpty(ctx.hostname), NonEmpty(ctx.uuid);
    TidyServers(w.db, s.w.db);
    if Removing(w, s.w, h, u) {
      hide NamesUnique, KindsUnique, Cleared;
    } else {
      RowReady(w, s.w, ctx);
      BaseHasNone(w.db, ctx);
      hide NamesUnique, KindsUnique, Sound;
      BaseOfRow(s.w.db, Base(w.db, ctx).servers, FreshId(w), NewServer(ctx), ctx);
    }
  }

  /** The run got past re-creating the row. */
  predicate GotPast(w: World, m: CreateMsg) {
    var c := BuildContext(w.(errors := []), m);
    c.Fine? && c.value.Some? && Recreate(c.w, c.value.value).Fine?
  }

  lemma SameStart(w: World, w1: World, s: Stage<Id>, ctx: Context)
    requires w1.db == w.db && w1.minted == w.minted && w1.session == w.session
    ensures Recreating(w1, ctx, s) ==> FreshId(w1) == FreshId(w) && (Stopped(w1, s.w, ctx) ==> Stopped(w, s.w, ctx))
    ensures Resumable(w1, s.w, ctx) ==> Resumable(w, s.w, ctx)
  {
  }

  lemma FilledRewritten(w: World, w1: World, row: World, o: Outcome, ctx: Context, cols: Cols, cards: seq<Card>)
    requires w1.db == w.db && w1.minted == w.minted && w1.session == w.session && Sound(w) && ctx.hostname != ""
    requires row.db == Inserted(Base(w.db, ctx), ctx, FreshId(w)) && row.minted == w.minted + 1 && row.session == w.session
    requires FillDone(row, o, Base(w.db, ctx).servers, FreshId(w), cols, ctx, cards)
    ensures Rewritten(w, o, ctx, cols, cards) && Resumable(w, o.w, ctx)
  {
    hide Sound, NamesUnique, KindsUnique, AnyServer, Complete, MarkedError, Failed, RowOf;
    RowReady(w, row, ctx);
    BaseHasNone(w.db, ctx);
    BaseOfRow(o.w.db, Base(w.db, ctx).servers, FreshId(w), cols, ctx);
  }

  /**
   One create attempt, whatever the faults. Until the row is back, rows only go.
   Past that point the new row is the only one of this hostname or uuid, and when
   the attempt returns, either the whole plan is on the server or it is marked as
   in error. In every case the message can be run again from what is left.
   */
  lemma CreateOnce(w: World, m: CreateMsg) returns (cols: Cols)
    requires Quiet(w) && Sound(w) && Usable(m) && SafeTags(Ctx(w, m), w.db.catalog)
    ensures
      var o, ctx := CreateServer(w, m), Ctx(w, m);
      && Resumable(w, o.w, ctx)
      && if GotPast(w, m) then Rewritten(w, o, ctx, cols, Cards(m)) else Stopped(w, o.w, ctx)
  {
    var w0 := w.(errors := []);
    var ctx := Ctx(w, m);
    StateIsFree(w.db.catalog, m, m.instance.value);
    cols := map[];
    ContextBuilt(w0, m);
    var c := BuildContext(w0, m);
    hide BuildContext, NamesUnique, KindsUnique, Sound, Recreate, Fill, Rewritten, Resumable, Stopped, SafeTags, StateFree, ContextOf;
    Resumed(w, c.w, ctx);
    if c.Fine? {
      var row := Recreate(c.w, ctx);
      RowRecreated(c.w, ctx) by { SoundSame(w, c.w); }
      StoppedResumes(c.w, ctx, row) by { SoundSame(w, c.w); }
      SameStart(w, c.w, row, ctx);
      if row.Fine? {
        RowReady(w, row.w, ctx);
        cols := ServerFilled(row.w, Base(w.db, ctx).servers, FreshId(w), NewServer(ctx), ctx, m);
        FilledRewritten(w, c.w, row.w, Fill(row.w, ctx, row.value, Cards(m)), ctx, cols, Cards(m));
      }
    }
  }

  lemma SoundSame(w: World, w': World)
    requires Sound(w) && w'.db == w.db && w'.minted == w.minted && w'.session == w.session
    ensures Sound(w') && Keyed(w'.db)
  {
  }

  lemma Resumed(w: World, w': World, ctx: Context)
    requires Sound(w) && w'.db == w.db && w'.minted == w.minted && w'.session == w.session && Quiet(w')
    ensures Resumable(w, w', ctx) && Stopped(w, w', ctx)
  {
  }
}
