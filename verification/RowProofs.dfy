/** The server row of a create: when it is there at the end, and which rows are gone. */
module RowProofs {
  import opened Basics
  import opened Cmdb
  import opened Planning
  import opened Retry
  import opened RetryProofs
  import opened StoreFacts
  import opened Attachments
  import opened AttachTidy
  import opened Tags
  import opened Create
  import opened RecreateProofs
  import opened FieldProofs
  import opened Invariants
  import opened CreateProofs
  import opened Runs
  import opened RenameProofs

  /** A server row of this key is there. */
  ghost predicate HasRow(db: Db, id: Id) { exists s :: s in db.servers && s.id == id }

  lemma UpdateKeepsRow(w: World, ctx: Context, mutation: Cols, o: Opts, id: Id)
    requires Quiet(w)
    ensures
      var t := UpdateRow(w, ctx, mutation, o);
      Quiet(t.w) && (HasRow(t.w.db, id) <==> HasRow(w.db, id))
  {
    var op := UpdateServers(Some(ctx.hostname), Some(ctx.uuid), mutation);
    WriteCall(w, op, o);
    var db' := Commit(w.db, op, FreshId(w));
    assert |db'.servers| == |w.db.servers| && forall i :: 0 <= i < |w.db.servers| ==> db'.servers[i].id == w.db.servers[i].id;
    if i :| 0 <= i < |w.db.servers| && w.db.servers[i].id == id { assert db'.servers[i] in db'.servers; }
    if i :| 0 <= i < |db'.servers| && db'.servers[i].id == id { assert w.db.servers[i] in w.db.servers; }
    hide Call, Reads, Commit;
  }

  lemma {:induction false} ReplayKeepsRow(w: World, ctx: Context, writes: seq<FieldWrite>, id: Id)
    requires Quiet(w)
    ensures HasRow(ReplayWrites(w, ctx, writes).w.db, id) <==> HasRow(w.db, id)
    decreases |writes|
  {
    if writes != [] {
      UpdateKeepsRow(w, ctx, writes[0].mutation, WriteOpts(writes[0]), id);
      hide UpdateRow, HasRow;
      ReplayKeepsRow(UpdateRow(w, ctx, writes[0].mutation, WriteOpts(writes[0])).w, ctx, writes[1..], id);
    }
  }

  lemma FieldsKeepRow(w: World, ctx: Context, id: Id)
    requires Quiet(w)
    ensures HasRow(WriteFields(w, ctx).w.db, id) <==> HasRow(w.db, id)
  {
    hide CreateWrites, Merge, UpdateRow, HasRow;
    UpdateKeepsRow(w, ctx, BatchOf(w, ctx), Opts("batch", false, None), id);
    ReplayKeepsRow(BatchSent(w, ctx).w, ctx, CreateWrites(ctx, w.db.catalog.refs), id);
  }

  /** Filling in a server neither takes a server row away nor adds one. */
  lemma FillKeepsRow(w: World, ctx: Context, server: Id, m: CreateMsg, id: Id)
    requires JustInserted(w, server)
    ensures HasRow(Fill(w, ctx, server, Cards(m)).w.db, id) <==> HasRow(w.db, id)
  {
    hide Cards, Persist, WriteFields, UpdateRow, FinalState, JustInserted, HasRow;
    IsQuiet(w, server);
    FieldsKeepRow(w, ctx, id);
    FieldsKeepCards(w, ctx, server);
    var fields := WriteFields(w, ctx);
    if fields.Fine? {
      CardsLeaveServers(fields.w, ctx, server, m);
      var net := Persist(fields.w, ctx, server, Cards(m));
      SameRows(fields.w.db, net.w.db, id);
      if net.Fine? { UpdateKeepsRow(net.w, ctx, FinalState(ctx, net.w.errors), RECORDS_STATE, id); }
    }
  }

  lemma SameRows(a: Db, b: Db, id: Id)
    requires a.servers == b.servers
    ensures HasRow(a, id) == HasRow(b, id)
  {
  }

  lemma RecreatedHasRow(w: World, m: CreateMsg)
    requires Quiet(w) && Sound(w) && Usable(m) && GotPast(w, m)
    ensures HasRow(Recreated(w, m).db, FreshId(w))
  {
    hide GotPast, Recreated, ContextOf, Base, JustInserted;
    RecreatedReady(w, m);
    assert Server(FreshId(w), NewServer(Ctx(w, m))) in Recreated(w, m).db.servers;
  }

  /** The re-creation a create attempt comes to. */
  function RowStage(w: World, m: CreateMsg): Stage<Id>
    requires Usable(m)
  {
    Recreate(BuildContext(w.(errors := []), m).w, Ctx(w, m))
  }

  /** An attempt whose re-creation was refused for good: rows may have gone, none came. */
  ghost predicate RowRefused(w: World, o: Outcome, m: CreateMsg)
    requires Usable(m)
  {
    && RowStage(w, m).Broken? && RowStage(w, m).exn == CmdbAbort
    && o.w.minted == w.minted && forall s :: s in o.w.db.servers ==> s in w.db.servers
  }

  /** A create attempt that returned left its row exactly when it got past re-creating it. */
  lemma ReturnedExactly(w: World, m: CreateMsg)
    requires Steady(w) && Usable(m) && CreateServer(w, m).status.Returned?
    ensures HasRow(CreateServer(w, m).w.db, FreshId(w)) <==> GotPast(w, m)
    ensures !GotPast(w, m) ==> RowRefused(w, CreateServer(w, m), m)
  {
    if GotPast(w, m) {
      hide CreateServer, GotPast, Recreated, ContextOf, Fill, Cards, JustInserted, HasRow;
      RecreatedReady(w, m);
      RecreatedHasRow(w, m);
      FillKeepsRow(Recreated(w, m), Ctx(w, m), FreshId(w), m, FreshId(w));
    } else {
      RefusedRowGone(w, m);
    }
  }

  lemma RefusedRowGone(w: World, m: CreateMsg)
    requires Steady(w) && Usable(m) && CreateServer(w, m).status.Returned? && !GotPast(w, m)
    ensures !HasRow(CreateServer(w, m).w.db, FreshId(w)) && RowRefused(w, CreateServer(w, m), m)
  {
    hide BuildContext, Recreate, Fill, ContextOf, Cards, Cleared;
    var c := BuildContext(w.(errors := []), m);
    ContextBuilt(w.(errors := []), m);
    ContextHostname(w.db.catalog, m);
    RowRecreated(c.w, Ctx(w, m));
  }
}
