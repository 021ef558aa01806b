/**
 A server row that carries a name of each of two messages: with one on the store they
 interfere, without one they do not.
 */
module SharedRows {
  import opened Basics
  import opened Cmdb
  import opened Planning
  import opened Retry
  import opened RetryProofs
  import opened StoreFacts
  import opened Attachments
  import opened AttachTidy
  import opened Tags
  import opened Create
  import opened RecreateProofs
  import opened FieldProofs
  import opened CreateProofs
  import opened Runs
  import opened Locality
  import opened Guarantee
  import opened RenameProofs
  import opened RowProofs

  /** No request that is keyed by rows of `a` is noticed by `b`. */
  ghost predicate Unnoticed(db: Db, a: Party, b: Party) {
    forall op: Op, id: Id :: LocalTo(db, a, op) && id.session == a.session ==> ViewFor(Commit(db, op, id), b) == ViewFor(db, b)
  }

  /** Of two messages with different names, one may notice what the other asks for exactly when some row carries a name of each. */
  lemma ApartExactly(db: Db, a: Party, b: Party)
    requires Keyed(db) && Disjoint(a, b)
    ensures Unnoticed(db, a, b) <==> NoneShared(db, a, b)
  {
    hide Keyed, Disjoint, View, Local, Belongs, Commit;
    if NoneShared(db, a, b) {
      forall op: Op, id: Id | LocalTo(db, a, op) && id.session == a.session ensures ViewFor(Commit(db, op, id), b) == ViewFor(db, b) {
        CommitForeign(db, a, b, op, id);
      }
    } else {
      var s :| s in db.servers && Belongs(s, a) && Belongs(s, b);
      SharedRowInterferes(db, a, b, s, Id(a.session, 0));
      assert LocalTo(db, a, DeleteServer(s.id)) && Id(a.session, 0).session == a.session;
    }
  }

  // -- two messages that do send it ------------------------------------------------------------------

  /** A row the other message owns is gone: it is noticed. */
  lemma GoneIsNoticed(db: Db, db': Db, p: Party, s: Server)
    requires s in db.servers && Belongs(s, p) && !HasRow(db', s.id)
    ensures ViewFor(db', p) != ViewFor(db, p)
  {
    ViewParts(db, p.scope, p.session);
    ViewParts(db', p.scope, p.session);
    assert s in ViewFor(db, p).servers && s !in ViewFor(db', p).servers;
  }

  /** A create that got past its row leaves no other row of its hostname. */
  lemma CreateTakesRow(w: World, m: CreateMsg, s: Server)
    requires Quiet(w) && Sound(w) && Usable(m) && GotPast(w, m)
    requires s in w.db.servers && Is(s, "hostname", m.instance.value.name.value)
    ensures !HasRow(CreateServer(w, m).w.db, s.id)
  {
    hide CreateServer, GotPast, Recreated, ContextOf, Fill, Cards, JustInserted, NewServer;
    var ctx := Ctx(w, m);
    ContextHostname(w.db.catalog, m);
    RecreatedReady(w, m);
    FillKeepsRow(Recreated(w, m), ctx, FreshId(w), m, s.id);
    forall x | x in Recreated(w, m).db.servers ensures x.id != s.id { NotThere(w, ctx, s, x); }
  }

  lemma NotThere(w: World, ctx: Context, s: Server, x: Server)
    requires Sound(w) && s in w.db.servers && Is(s, "hostname", ctx.hostname) && ctx.hostname != ""
    requires x in Base(w.db, ctx).servers || x.id == FreshId(w)
    ensures x.id != s.id
  {
    if x in Base(w.db, ctx).servers {
      BaseHasNone(w.db, ctx);
      assert x in w.db.servers && AnyServer(s, NonEmpty(ctx.hostname), NonEmpty(ctx.uuid));
      if x.id == s.id { OneServer(w.db, x, s); }
    }
  }

  /** A delete that returned leaves no row of its uuid. */
  lemma DeleteTakesRow(w: World, uuid: string, s: Server)
    requires Quiet(w) && Sound(w) && uuid != "" && s in w.db.servers && Is(s, "uuid", uuid)
    requires Delete(w, DeleteMsg(Some(uuid))).status.Returned?
    ensures !HasRow(Delete(w, DeleteMsg(Some(uuid))).w.db, s.id)
  {
    hide RemoveServer;
    ServerRemoved(w, uuid, "");
    var left := RemoveServer(w, uuid, "").w.db;
    assert AnyServer(s, None, Some(uuid));
    forall x | x in left.servers ensures x.id != s.id {
      ClearedHasNone(w.db, None, Some(uuid));
      if x.id == s.id { OneServer(w.db, x, s); }
    }
  }

  /** With no faults ahead a create gets past its row and a delete returns. */
  lemma BothGetThere(w: World, m: CreateMsg, uuid: string)
    requires Quiet(w) && w.tape == [] && Usable(m)
    requires First(WithoutState(CmdbTags(m.instance.value.metadata)), HasKey(CAP_TENANT_TAG)).None?
    ensures GotPast(w, m) && Delete(w, DeleteMsg(Some(uuid))).status.Returned?
  {
    hide BuildContext, Recreate, RemoveAll, CmdbTags, WithoutState, First;
    ContextCalm(w.(errors := []), m);
    var c := BuildContext(w.(errors := []), m);
    if c.value.Some? { RecreateCalm(c.w, c.value.value); }
    var op := SelectServers(None, NonEmpty(uuid));
    NoFaultCall(w, op, NoSelector, RAISES_SELECT);
    var t := Call(w, op, NoSelector, RAISES_SELECT);
    RemovalCalm(t.w, t.answer.reply.found);
    hide Call, Exchange, Reads;
  }

  /**
   Two messages whose runs collide on a row that carries a name of each: a create of its
   hostname and a delete of its uuid. Either of them alone, with no faults, takes the row
   away, and with it the view of the other.
   */
  lemma SharedRowCollides(w: World, a: Party, b: Party, m: CreateMsg, uuid: string, s: Server)
    requires Quiet(w) && Sound(w) && w.tape == [] && Usable(m) && uuid != ""
    requires First(WithoutState(CmdbTags(m.instance.value.metadata)), HasKey(CAP_TENANT_TAG)).None?
    requires m.instance.value.name.value in a.scope.hostnames && uuid in b.scope.uuids
    requires s in w.db.servers && Is(s, "hostname", m.instance.value.name.value) && Is(s, "uuid", uuid)
    ensures ViewFor(Process(w, CreateInstance(m)).w.db, b) != ViewFor(w.db, b)
    ensures ViewFor(Process(w, DeleteInstance(DeleteMsg(Some(uuid)))).w.db, a) != ViewFor(w.db, a)
  {
    hide CreateServer, Delete, Attach, Detach, Resize, GotPast, View, CmdbTags, WithoutState, First, Sound;
    BothGetThere(w, m, uuid);
    CreateTakesRow(w, m, s);
    DeleteTakesRow(w, uuid, s);
    assert Belongs(s, a) && Belongs(s, b);
    GoneIsNoticed(w.db, CreateServer(w, m).w.db, b, s);
    GoneIsNoticed(w.db, Delete(w, DeleteMsg(Some(uuid))).w.db, a, s);
  }
}
