/** Runs of messages of every kind, under arbitrary faults: what every step keeps of every server. */
module Runs {
  import opened Basics
  import opened BondNames
  import opened Cmdb
  import opened Planning
  import opened Retry
  import opened RetryProofs
  import opened StoreFacts
  import opened Attachments
  import opened AttachProofs
  import opened AttachConverges
  import opened DetachProofs
  import opened Tags
  import opened Create
  import opened RecreateProofs
  import opened Invariants
  import opened NetProofs
  import opened LiveProofs
  import opened ForeignRow
  import opened CreateProofs
  import opened AttachTidy

  /** One message, by its action type. */
  datatype Message =
    | CreateInstance(create: CreateMsg)
    | DeleteInstance(delete: DeleteMsg)
    | ResizeInstance(resize: ResizeMsg)
    | AttachAddress(attach: AttachMsg)
    | DetachAddress(detach: DetachMsg)
    | Unhandled
    | Undecodable

  /** One processing attempt of one message: an unknown action is ignored, a body that is no JSON is refused. */
  function Process(w: World, m: Message): (o: Outcome)
    ensures Extends(w, o.w)
  {
    match m
    case CreateInstance(c) => CreateServer(w, c)
    case DeleteInstance(d) => Delete(w, d)
    case ResizeInstance(r) => Resize(w, r)
    case AttachAddress(a) => Attach(w, a)
    case DetachAddress(d) => Detach(w, d)
    case Unhandled => Outcome(w, Returned)
    case Undecodable => Outcome(w, Raised(ContractError))
  }

  /** The world after attempts at these messages, one after the other: redeliveries are repetitions. */
  function Run(w: World, ms: seq<Message>): (r: World)
    ensures Extends(w, r)
  {
    if ms == [] then w else Process(Run(w, ms[..|ms| - 1]), ms[|ms| - 1]).w
  }

  /** What one message keeps: distinct keys, unique endpoint names, and unique scarce kinds, each on its own. */
  ghost predicate Orderly(w: World, w': World) { Steady(w') && Tidier(w.db, w'.db) }

  /** A create names its hostname. */
  predicate HostnameGiven(m: Message) {
    m.CreateInstance? && m.create.instance.Some? ==> m.create.instance.value.name != Some("")
  }

  // -- detach, delete, resize --------------------------------------------------------------------------

  lemma RemovedSteady(w: World, addr: string, uuid: string)
    requires Sound(w)
    ensures
      var db' := Removed(w.db, addr, uuid);
      Keyed(db') && Unborn(db', w.session, w.minted) && Tidier(w.db, db')
  {
    hide Filter, Keyed, Tidier;
    TidyFewerIps(w.db, addr, uuid, FreshId(w));
    CommitSound(w.db, DeleteAttachedIps(addr, uuid), w.session, w.minted);
    hide NamesUnique, KindsUnique, Keyed, Unborn;
  }

  lemma SweptSteady(db: Db, uuid: string, session: nat, minted: nat)
    requires Keyed(db) && Unborn(db, session, minted)
    ensures
      var db' := Swept(db, uuid);
      Keyed(db') && Unborn(db', session, minted) && Tidier(db, db')
  {
    TidySwept(db, uuid, Id(session, minted));
    CommitSound(db, SweepEndpoints(uuid), session, minted);
    SweepIsSwept(db, uuid, Id(session, minted));
    hide NamesUnique, KindsUnique, Keyed, Unborn;
  }

  lemma DetachSteady(w: World, m: DetachMsg)
    requires Steady(w)
    ensures Orderly(w, Detach(w, m).w)
  {
    DetachDelivers(w, m);
    if m.addr.Some? && m.instance.Some? {
      RemovedSteady(w, m.addr.value, m.instance.value);
      SweptSteady(Removed(w.db, m.addr.value, m.instance.value), m.instance.value, w.session, w.minted);
    }
    hide Detach, Removed, Swept, Detached, Keyed, Unborn, NamesUnique, KindsUnique;
  }

  lemma DeleteSteady(w: World, m: DeleteMsg)
    requires Steady(w)
    ensures Orderly(w, Delete(w, m).w)
  {
    if m.instance.Some? {
      ServerRemoved(w, m.instance.value, "");
      TidyServers(w.db, RemoveServer(w, m.instance.value, "").w.db);
      hide RemoveServer, NamesUnique, KindsUnique, Cleared;
    }
  }

  /** Only columns of server rows changed. */
  ghost predicate ColumnsOnly(w: World, w': World) {
    && Orderly(w, w') && w'.db.endpoints == w.db.endpoints && w'.db.ips == w.db.ips
    && w'.minted == w.minted && w'.session == w.session
  }

  lemma UpdateSteady(w: World, op: Op, o: Opts)
    requires Steady(w) && op.UpdateServers?
    ensures ColumnsOnly(w, Call(w, op, NoSelector, o).w)
  {
    WriteCall(w, op, o);
    CommitSound(w.db, op, w.session, w.minted);
    TidyServers(w.db, Commit(w.db, op, FreshId(w)));
    hide Call, NamesUnique, KindsUnique, Keyed, Unborn, Reads;
  }

  lemma ResizeSteady(w: World, m: ResizeMsg)
    requires Steady(w)
    ensures Orderly(w, Resize(w, m).w)
  {
    if m.instance.Some? {
      var uuid := m.instance.value;
      var w1 := w;
      if m.price.Some? {
        var price := map["server_monthly_payment" := m.price.value];
        UpdateSteady(w, UpdateServers(None, Some(uuid), price), Opts("server_monthly_payment", true, None));
        w1 := SetColumn(w, uuid, price, "server_monthly_payment").w;
      }
      if m.flavor.Some? {
        var flavor := map["flavor" := Lookup(map["name" := m.flavor.value, "region_code" := m.region])];
        UpdateSteady(w1, UpdateServers(None, Some(uuid), flavor), Opts("flavor", true, None));
      }
      hide Call, Steady;
    }
  }

  // -- create ---------------------------------------------------------------------------------------------

  lemma {:induction false} ReplaySteady(w: World, ctx: Context, writes: seq<FieldWrite>)
    requires Steady(w)
    ensures ColumnsOnly(w, ReplayWrites(w, ctx, writes).w)
    decreases |writes|
  {
    if writes != [] {
      UpdateSteady(w, UpdateServers(Some(ctx.hostname), Some(ctx.uuid), writes[0].mutation), WriteOpts(writes[0]));
      hide Call, Steady;
      var t := UpdateRow(w, ctx, writes[0].mutation, WriteOpts(writes[0]));
      if t.answer.Got? { ReplaySteady(t.w, ctx, writes[1..]); }
    }
  }

  lemma FieldsSteady(w: World, ctx: Context)
    requires Steady(w)
    ensures ColumnsOnly(w, WriteFields(w, ctx).w)
  {
    hide Steady;
    var writes := CreateWrites(ctx, w.db.catalog.refs);
    var batch := Merge(writes);
    hide CreateWrites, Merge;
    UpdateSteady(w, UpdateServers(Some(ctx.hostname), Some(ctx.uuid), batch), Opts("batch", false, None));
    hide Call, Steady;
    var t := UpdateRow(w, ctx, batch, Opts("batch", false, None));
    ReplaySteady(t.w, ctx, writes);
  }

  lemma FillSteady(w: World, ctx: Context, server: Id, m: CreateMsg)
    requires Steady(w) && Born(server, w.session, w.minted) && NoCards(w.db, server)
    ensures Orderly(w, Fill(w, ctx, server, Cards(m)).w)
  {
    hide WriteFields, UpdateRow, Persist, Cards, FinalState, NamesUnique, KindsUnique, Sound;
    FieldsSteady(w, ctx);
    var fields := WriteFields(w, ctx);
    CardsPart(fields.w, ctx, server, m);
    var net := Persist(fields.w, ctx, server, Cards(m));
    if fields.Fine? && net.Fine? {
      UpdateRowSteady(net.w, ctx);
    }
  }

  lemma UpdateRowSteady(w: World, ctx: Context)
    requires Steady(w)
    ensures Orderly(w, UpdateRow(w, ctx, FinalState(ctx, w.errors), RECORDS_STATE).w)
  {
    UpdateSteady(w, UpdateServers(Some(ctx.hostname), Some(ctx.uuid), FinalState(ctx, w.errors)), RECORDS_STATE);
  }

  lemma ContextHostname(catalog: Catalog, m: CreateMsg)
    requires m.instance.Some? && m.instance.value.name.Some? && m.instance.value.id.Some?
    ensures ContextOf(catalog, m, m.instance.value).hostname == m.instance.value.name.value
  {
  }

  lemma RemovingSteady(w: World, w': World, h: Option<string>, u: Option<string>)
    requires Steady(w) && Removing(w, w', h, u) && w'.session == w.session
    ensures Steady(w') && Tidier(w.db, w'.db)
  {
    TidyServers(w.db, w'.db);
    hide NamesUnique, KindsUnique, Cleared, Keyed;
  }

  lemma ClearedKeyed(db: Db, h: Option<string>, u: Option<string>, session: nat, minted: nat)
    requires Keyed(db) && Unborn(db, session, minted)
    ensures Keyed(Cleared(db, h, u)) && Unborn(Cleared(db, h, u), session, minted)
  {
    FilterKeyed(db.servers, NoneOf(h, u), (s: Server) => s.id);
    FilterKeyed(db.rails, NotUnder(Targets(db, h, u)), (r: Rail) => r.id);
    hide Targets, AnyServer;
  }

  lemma InsertedSteady(w: World, w': World, ctx: Context)
    requires Steady(w) && Quiet(w') && w'.session == w.session && w'.minted == w.minted + 1
    requires w'.db == Inserted(Cleared(w.db, NonEmpty(ctx.hostname), NonEmpty(ctx.uuid)), ctx, FreshId(w))
    ensures Steady(w') && Tidier(w.db, w'.db)
  {
    TidyServers(w.db, w'.db);
    var left := Cleared(w.db, NonEmpty(ctx.hostname), NonEmpty(ctx.uuid));
    ClearedKeyed(w.db, NonEmpty(ctx.hostname), NonEmpty(ctx.uuid), w.session, w.minted);
    assert w'.db == Commit(left, InsertServer(NewServer(ctx)), FreshId(w));
    hide Cleared, Inserted, NewServer, NamesUnique, KindsUnique, Keyed, Unborn, Commit;
    CommitSound(left, InsertServer(NewServer(ctx)), w.session, w.minted);
  }

  lemma LeftSteady(w: World, w': World, ctx: Context)
    requires Steady(w) && Quiet(w') && w'.session == w.session && w'.minted == w.minted
    requires w'.db == Cleared(w.db, NonEmpty(ctx.hostname), NonEmpty(ctx.uuid))
    ensures Steady(w') && Tidier(w.db, w'.db)
  {
    TidyServers(w.db, w'.db);
    ClearedKeyed(w.db, NonEmpty(ctx.hostname), NonEmpty(ctx.uuid), w.session, w.minted);
    hide NamesUnique, KindsUnique;
  }

  /** However the row's re-creation ended, and whatever the hostname: only servers and rails changed. */
  lemma RecreatedSteady(w: World, s: Stage<Id>, ctx: Context)
    requires Steady(w) && RecreatingAny(w, ctx, s) && s.w.session == w.session
    ensures Orderly(w, s.w) && s.w.db.endpoints == w.db.endpoints && s.w.db.ips == w.db.ips && s.w.db.catalog == w.db.catalog
  {
    var h, u := NonEmpty(ctx.hostname), NonEmpty(ctx.uuid);
    if Removing(w, s.w, h, u) {
      RemovingSteady(w, s.w, h, u);
    } else {
      InsertedSteady(w, s.w, ctx);
    }
    hide Sound, NamesUnique, KindsUnique, Cleared, Overlooked;
  }

  /** The key a create goes on with: its own fresh row, or the overlooked one. */
  lemma RecreatedKey(w: World, s: Stage<Id>, ctx: Context)
    requires Steady(w) && RecreatingAny(w, ctx, s) && s.w.session == w.session && s.Fine?
    ensures Born(s.value, s.w.session, s.w.minted)
    ensures s.value == FreshId(w) || (Tries(w) >= 2 && Overlooked(w.db, ctx).Some? && s.value == Overlooked(w.db, ctx).value.id)
    ensures s.value == FreshId(w) ==> NoCards(s.w.db, s.value)
  {
    var left := Cleared(w.db, NonEmpty(ctx.hostname), NonEmpty(ctx.uuid));
    if s.value != FreshId(w) {
      assert Overlooked(w.db, ctx).value in left.servers;
      assert Overlooked(w.db, ctx).value in w.db.servers;
    }
    hide Cleared, Removing, NewServer, Keyed;
  }

  // -- a create that is handed back another server's row ------------------------------------------------

  /** The row of another server that this create may be handed back as its own. */
  function Foreign(w: World, m: CreateMsg): Option<Server> {
    if Readable(m) && Tries(w) >= 2 then Overlooked(w.db, Ctx(w, m)) else None
  }

  function NamesPlanned(m: CreateMsg): seq<string> { EndpointNames(Cards(m), BondTaken(Cards(m))) }

  /** That row has an endpoint of a planned name. */
  ghost predicate NamesExposed(w: World, m: CreateMsg) {
    Foreign(w, m).Some? && exists e :: e in w.db.endpoints && e.serverId == Foreign(w, m).value.id && e.name in NamesPlanned(m)
  }

  /** That row has an address of a planned scarce kind. */
  ghost predicate KindsExposed(w: World, m: CreateMsg) {
    && Foreign(w, m).Some?
    && exists kind :: PlansKind(PrefixesOf(w.db, Ctx(w, m).dcName), Cards(m), kind) && !KindFree(w.db, Foreign(w, m).value.id, kind)
  }

  /** A hostname that is looked for, or a single attempt: no other server's row comes back. */
  lemma NotExposed(w: World, m: CreateMsg)
    requires Tries(w) == 1 || HostnameGiven(CreateInstance(m))
    ensures !NamesExposed(w, m) && !KindsExposed(w, m)
  {
    hide Overlooked, ContextOf;
    if Readable(m) {
      ContextHostname(w.db.catalog, m);
      if Ctx(w, m).hostname != "" { NoneOverlooked(w.db, Ctx(w, m)); }
    }
  }

  /** Filling in a server that may hold cards already. */
  lemma FillForeign(w: World, ctx: Context, server: Id, m: CreateMsg)
    requires Steady(w) && Born(server, w.session, w.minted)
    ensures
      var o := Fill(w, ctx, server, Cards(m));
      && Steady(o.w)
      && (NamesFit(w.db, server, NamesPlanned(m)) ==> NamesUnique(o.w.db))
      && (KindsFit(w.db, server, {}, PrefixesOf(w.db, ctx.dcName), Cards(m)) ==> KindsUnique(o.w.db))
  {
    hide WriteFields, UpdateRow, PersistCards, Cards, FinalState, NamesUnique, KindsUnique, Sound, BondTaken, EndpointNames, NamesFit, KindsFit, PrefixesOf;
    FieldsSteady(w, ctx);
    var fields := WriteFields(w, ctx);
    SameFits(w, fields.w, ctx, server, m);
    var net := Persist(fields.w, ctx, server, Cards(m));
    CardsForeign(fields.w, ctx, server, m);
    if fields.Fine? && net.Fine? { UpdateRowSteady(net.w, ctx); }
  }

  lemma SameFits(w: World, w': World, ctx: Context, server: Id, m: CreateMsg)
    requires w'.db.endpoints == w.db.endpoints && w'.db.ips == w.db.ips && w'.db.catalog == w.db.catalog
    ensures NamesFit(w.db, server, NamesPlanned(m)) ==> NamesFit(w'.db, server, NamesPlanned(m)) && NamesUnique(w'.db)
    ensures
      var prefixes := PrefixesOf(w.db, ctx.dcName);
      && prefixes == PrefixesOf(w'.db, ctx.dcName)
      && (KindsFit(w.db, server, {}, prefixes, Cards(m)) ==> KindsFit(w'.db, server, {}, prefixes, Cards(m)) && KindsUnique(w'.db))
  {
    TidyServers(w.db, w'.db);
    assert forall s, c :: CardOn(w'.db, s, c) == CardOn(w.db, s, c);
    hide PlansKind, Cards, EndpointNames, CardOn;
  }

  lemma CardsForeign(w: World, ctx: Context, server: Id, m: CreateMsg)
    requires Steady(w) && Born(server, w.session, w.minted)
    ensures
      var s := Persist(w, ctx, server, Cards(m));
      && Steady(s.w)
      && (NamesFit(w.db, server, NamesPlanned(m)) ==> NamesUnique(s.w.db))
      && (KindsFit(w.db, server, {}, PrefixesOf(w.db, ctx.dcName), Cards(m)) ==> KindsUnique(s.w.db))
  {
    hide PersistCards, Cards, NamesUnique, KindsUnique, Keyed, Unborn, BondTaken, EndpointNames, NamesFit, KindsFit, PrefixesOf;
    var cards, taken := Cards(m), BondTaken(Cards(m));
    CardsKinds(w, ctx.dcName, server, cards, taken, {}, cards);
    if NamesFit(w.db, server, NamesPlanned(m)) { CardsNamed(w, ctx.dcName, server, cards, taken, {}); }
  }

  lemma PlanIsDistinct(m: CreateMsg)
    ensures Distinct(NamesPlanned(m))
  {
    PlannedNames(m);
    hide Cards, EndpointNames, BondTaken;
  }

  /** No planned name is on the row that is handed back: the names fit there. */
  lemma ForeignNames(w: World, db: Db, m: CreateMsg)
    requires Foreign(w, m).Some? && db.endpoints == w.db.endpoints && NamesUnique(db) && !NamesExposed(w, m)
    ensures NamesFit(db, Foreign(w, m).value.id, NamesPlanned(m))
  {
    hide Foreign, NamesPlanned, NamesUnique, Distinct;
    PlanIsDistinct(m);
  }

  lemma SameFree(a: Db, b: Db, server: Id, kind: Option<string>)
    requires b.endpoints == a.endpoints && b.ips == a.ips
    ensures KindFree(b, server, kind) <==> KindFree(a, server, kind)
  {
    assert forall c :: CardOn(b, server, c) == CardOn(a, server, c);
    hide CardOn;
  }

  /** No planned scarce kind is on it: the kinds fit there. */
  lemma ForeignKinds(w: World, db: Db, m: CreateMsg)
    requires Foreign(w, m).Some? && db.endpoints == w.db.endpoints && db.ips == w.db.ips && db.catalog == w.db.catalog
    requires KindsUnique(db) && !KindsExposed(w, m)
    ensures KindsFit(db, Foreign(w, m).value.id, {}, PrefixesOf(db, Ctx(w, m).dcName), Cards(m))
  {
    var server, prefixes := Foreign(w, m).value.id, PrefixesOf(w.db, Ctx(w, m).dcName);
    SamePrefixes(db, w.db, Ctx(w, m).dcName);
    hide Foreign, Cards, PlansKind, KindsUnique, KindFree, ContextOf, PrefixesOf;
    forall kind | PlansKind(prefixes, Cards(m), kind) ensures KindFree(db, server, kind) { SameFree(w.db, db, server, kind); }
  }

  /**
   A create, whatever its hostname and under every tape: endpoint names stay unique unless it may
   be handed back a row that has an endpoint of a planned name, and kinds unless that row has an
   address of a planned scarce kind.
   */
  lemma CreateSteady(w: World, m: CreateMsg)
    requires Steady(w)
    ensures
      var w' := CreateServer(w, m).w;
      && Steady(w')
      && (NamesUnique(w.db) && !NamesExposed(w, m) ==> NamesUnique(w'.db))
      && (KindsUnique(w.db) && !KindsExposed(w, m) ==> KindsUnique(w'.db))
  {
    hide BuildContext, NamesUnique, KindsUnique, Recreate, Fill, ContextOf, Cards, RecreatingAny, NamesExposed, KindsExposed, NamesFit, KindsFit, Overlooked;
    var w0 := w.(errors := []);
    ContextBuilt(w0, m);
    var c := BuildContext(w0, m);
    SoundSame(w, c.w);
    if c.Fine? && c.value.Some? {
      var ctx := c.value.value;
      var row := Recreate(c.w, ctx);
      RowRecreatedAny(c.w, ctx);
      RecreatedSteady(c.w, row, ctx);
      if row.Fine? {
        RecreatedKey(c.w, row, ctx);
        hide Sound;
        if row.value == FreshId(c.w) {
          FillSteady(row.w, ctx, row.value, m);
        } else {
          assert Foreign(w, m).Some? && row.value == Foreign(w, m).value.id;
          if NamesUnique(row.w.db) && !NamesExposed(w, m) { ForeignNames(w, row.w.db, m); }
          if KindsUnique(row.w.db) && !KindsExposed(w, m) { ForeignKinds(w, row.w.db, m); }
          FillForeign(row.w, ctx, row.value, m);
        }
      }
    }
  }

  // -- every run ---------------------------------------------------------------------------------------------

  /** When kinds stay unique too: no attach probe was refused, or there is one attempt only. */
  ghost predicate KindsSafe(w: World, w': World) { Honest(w'.log) || Tries(w) == 1 }

  /** This message may give an endpoint name, or a scarce kind, twice on another server's row. */
  ghost predicate MayClashNames(w: World, m: Message) { m.CreateInstance? && NamesExposed(w, m.create) }
  ghost predicate MayClashKinds(w: World, m: Message) { m.CreateInstance? && KindsExposed(w, m.create) }

  lemma ProcessSteady(w: World, m: Message)
    requires Steady(w)
    ensures
      var w' := Process(w, m).w;
      && Steady(w')
      && (NamesUnique(w.db) && !MayClashNames(w, m) ==> NamesUnique(w'.db))
      && (KindsUnique(w.db) && !MayClashKinds(w, m) && KindsSafe(w, w') ==> KindsUnique(w'.db))
  {
    hide Steady, CreateServer, Delete, Resize, Attach, Detach, NamesUnique, KindsUnique, NamesExposed, KindsExposed;
    match m
    case CreateInstance(c) => CreateSteady(w, c);
    case DeleteInstance(d) => DeleteSteady(w, d);
    case ResizeInstance(r) => ResizeSteady(w, r);
    case AttachAddress(a) => AttachSteady(w, a);
    case DetachAddress(d) => DetachSteady(w, d);
    case _ =>
  }

  /** At no step of this run may a create clash on another server's row. */
  ghost predicate NamesSafeRun(w: World, ms: seq<Message>) {
    ms != [] ==> NamesSafeRun(w, ms[..|ms| - 1]) && !MayClashNames(Run(w, ms[..|ms| - 1]), ms[|ms| - 1])
  }

  ghost predicate KindsSafeRun(w: World, ms: seq<Message>) {
    ms != [] ==> KindsSafeRun(w, ms[..|ms| - 1]) && !MayClashKinds(Run(w, ms[..|ms| - 1]), ms[|ms| - 1])
  }

  /** Every run, step by step: what one message keeps the run keeps. */
  lemma {:induction false} RunKeeps(w: World, ms: seq<Message>)
    requires Steady(w)
    ensures Steady(Run(w, ms))
    ensures NamesUnique(w.db) && NamesSafeRun(w, ms) ==> NamesUnique(Run(w, ms).db)
    ensures KindsUnique(w.db) && KindsSafeRun(w, ms) && KindsSafe(w, Run(w, ms)) ==> KindsUnique(Run(w, ms).db)
  {
    hide Process, MayClashKinds, KindsExposed, CreateServer, MayClashNames;
    if ms != [] {
      hide Steady, Process, Honest, NamesUnique, KindsUnique, MayClashNames, MayClashKinds;
      var front, last := ms[..|ms| - 1], ms[|ms| - 1];
      RunKeeps(w, front);
      ProcessSteady(Run(w, front), last);
      if Honest(Run(w, ms).log) { HonestPrefix(Run(w, front).log, Run(w, ms).log); }
    }
  }

  lemma {:induction false} SafeRun(w: World, ms: seq<Message>)
    requires Tries(w) == 1 || forall m :: m in ms ==> HostnameGiven(m)
    ensures NamesSafeRun(w, ms) && KindsSafeRun(w, ms)
  {
    if ms != [] {
      hide Process, NamesExposed, KindsExposed;
      var front, last := ms[..|ms| - 1], ms[|ms| - 1];
      assert last in ms && forall m :: m in front ==> m in ms;
      SafeRun(w, front);
      if last.CreateInstance? { NotExposed(Run(w, front), last.create); }
    }
  }

  /**
   Over every run of messages of every kind, each possibly repeated and cut off anywhere by
   any faults, with one attempt per request or with every create naming its hostname: every
   server keeps pairwise distinct endpoint names; and at most one `be` and at most one `fe`
   address, as long as no attach probe was refused or there is one attempt only.
   */
  lemma RunSteady(w: World, ms: seq<Message>)
    requires Steady(w) && (Tries(w) == 1 || forall m :: m in ms ==> HostnameGiven(m))
    ensures Steady(Run(w, ms))
    ensures NamesUnique(w.db) ==> NamesUnique(Run(w, ms).db)
    ensures KindsUnique(w.db) && KindsSafe(w, Run(w, ms)) ==> KindsUnique(Run(w, ms).db)
  {
    hide Steady, Run, NamesUnique, KindsUnique, KindsSafe;
    RunKeeps(w, ms);
    SafeRun(w, ms);
  }
}
