/** Any number of create attempts, cut off anywhere, and what a finished one leaves. */
module CreateConverges {
  import opened Basics
  import opened Cmdb
  import opened Planning
  import opened PlanningProofs
  import opened Retry
  import opened RetryProofs
  import opened StoreFacts
  import opened Attachments
  import opened AttachConverges
  import opened Tags
  import opened TagsProofs
  import opened Create
  import opened RecreateProofs
  import opened FieldProofs
  import opened Invariants
  import opened NetProofs
  import opened CreateProofs

  /** `n` attempts at the same message, one after the other. */
  function Creates(w: World, m: CreateMsg, n: nat): (h: History)
    ensures Extends(w, h.w)
  {
    if n == 0 then History(w, false)
    else
      var h := Creates(w, m, n - 1);
      var o := CreateServer(h.w, m);
      History(o.w, h.returned || o.status.Returned?)
  }

  lemma {:induction false} CreatesResume(w: World, m: CreateMsg, n: nat)
    requires Quiet(w) && Sound(w) && Usable(m) && SafeTags(Ctx(w, m), w.db.catalog)
    ensures Resumable(w, Creates(w, m, n).w, Ctx(w, m))
  {
    hide CreateServer, SafeTags, GotPast, Rewritten, Stopped, NamesUnique, KindsUnique, Sound, Base, ContextOf;
    if n == 0 {
      Resumed(w, w, Ctx(w, m));
    } else {
      CreatesResume(w, m, n - 1);
      var h := Creates(w, m, n - 1);
      var cols := CreateOnce(h.w, m);
    }
  }

  /** One row of this hostname or uuid; every other row and rail as in the base store. */
  ghost predicate SoleRow(w: World, db: Db, ctx: Context, row: Server) {
    && db.servers == Base(w.db, ctx).servers + [row]
    && db.rails == Base(w.db, ctx).rails
    && Is(row, "hostname", ctx.hostname) && Is(row, "uuid", ctx.uuid)
    && (forall s :: s in db.servers && AnyServer(s, NonEmpty(ctx.hostname), NonEmpty(ctx.uuid)) ==> s == row)
  }

  lemma RowIsSole(w: World, before: World, o: Outcome, ctx: Context, cols: Cols, cards: seq<Card>)
    requires Resumable(w, before, ctx) && Rewritten(before, o, ctx, cols, cards) && ctx.hostname != ""
    ensures SoleRow(w, o.w.db, ctx, Server(FreshId(before), cols))
  {
    BaseHasNone(w.db, ctx);
    hide Base, AnyServer, Sound, NamesUnique, KindsUnique, Complete, MarkedError, Failed, CardOn;
  }

  lemma CtxHostname(w: World, m: CreateMsg)
    requires Usable(m)
    ensures Ctx(w, m).hostname == m.instance.value.name.value && Ctx(w, m).hostname != ""
  {
  }

  lemma RowFinished(w: World, o: Outcome, ctx: Context, cols: Cols, cards: seq<Card>)
    requires Rewritten(w, o, ctx, cols, cards)
    ensures o.status.Returned? ==>
      if Failed(o.w.errors) then MarkedError(cols, o.w.errors) else Complete(o.w.db, FreshId(w), cols, ctx, cards)
  {
  }

  /** An attempt that got past re-creating the row: the only row, and if it returned, the plan on it or marked in error. */
  ghost predicate Settled(w: World, before: World, o: Outcome, m: CreateMsg, cols: Cols)
    requires Usable(m)
  {
    var ctx, row := Ctx(w, m), Server(FreshId(before), cols);
    && SoleRow(w, o.w.db, ctx, row)
    && (o.status.Returned? ==>
          if Failed(o.w.errors) then MarkedError(cols, o.w.errors) else Complete(o.w.db, row.id, cols, ctx, Cards(m)))
  }

  /**
   Whole-message retry is safe: after any number of attempts cut off at any point,
   the next one that gets past re-creating the row leaves exactly one row of this
   hostname or uuid, every other row and rail as it was before the first attempt,
   and, if it returns, the whole plan on that row or the row marked as in error.
   */
  lemma CreateRetried(w: World, m: CreateMsg, n: nat) returns (cols: Cols)
    requires Quiet(w) && Sound(w) && Usable(m) && SafeTags(Ctx(w, m), w.db.catalog)
    ensures
      var before := Creates(w, m, n).w;
      GotPast(before, m) ==> Settled(w, before, CreateServer(before, m), m, cols)
  {
    hide CreateServer, SafeTags, GotPast, Stopped, NamesUnique, KindsUnique, Sound, Base, Complete, MarkedError, Failed, Rewritten, SoleRow, Creates;
    CreatesResume(w, m, n);
    CtxHostname(w, m);
    var before := Creates(w, m, n).w;
    cols := CreateOnce(before, m);
    if GotPast(before, m) {
      hide Resumable;
      RowIsSole(w, before, CreateServer(before, m), Ctx(w, m), cols, Cards(m));
      RowFinished(before, CreateServer(before, m), Ctx(w, m), cols, Cards(m));
    }
  }

  // -- every address of the message --------------------------------------------------------------

  lemma {:induction false} OnSomeCard(cards: seq<Card>, a: string)
    requires a in AllAddresses(cards)
    ensures exists c :: c in cards && a in c.addresses
  {
    var front, last := cards[..|cards| - 1], cards[|cards| - 1];
    if a in last.addresses {
      assert last in cards;
    } else {
      OnSomeCard(front, a);
    }
  }

  lemma FixedIsPlanned(m: CreateMsg, a: string)
    requires m.instance.Some? && a in FixedAddresses(m.instance.value.networks)
    ensures exists c :: c in Cards(m) && a in c.addresses
  {
    hide AddressCards, HostNetworks, Numbered, PortsApart, FixedAddresses, AllAddresses, AddressesOf;
    var nets := m.instance.value.networks;
    AddressConservation(nets);
    HostNetworksPlan(nets, m.ports);
    assert a in multiset(AllAddresses(AddressCards(nets)));
    OnSomeCard(AddressCards(nets), a);
    var c :| c in AddressCards(nets) && a in c.addresses;
    assert c in Cards(m);
  }

  lemma PortIsPlanned(m: CreateMsg, p: Port, a: string)
    requires m.instance.Some? && p in m.ports && a in p.ips
    ensures exists c :: c in Cards(m) && a in c.addresses
  {
    HostNetworksPlan(m.instance.value.networks, m.ports);
    hide AddressCards, HostNetworks, Numbered, PortsApart;
    assert a in AddressesOf(Cards(m));
  }

  /** What `Complete` says of the message itself: each fixed address and each port address has its row. */
  lemma EveryAddressPlaced(db: Db, server: Id, cols: Cols, ctx: Context, m: CreateMsg)
    requires m.instance.Some? && Complete(db, server, cols, ctx, Cards(m))
    ensures forall a :: a in FixedAddresses(m.instance.value.networks) ==> Placed(db, server, a)
    ensures forall p, a :: p in m.ports && a in p.ips ==> Placed(db, server, a)
  {
    hide Placed, Cards, FixedAddresses, Agrees;
    forall a | a in FixedAddresses(m.instance.value.networks) ensures Placed(db, server, a) { FixedIsPlanned(m, a); }
    forall p, a | p in m.ports && a in p.ips ensures Placed(db, server, a) { PortIsPlanned(m, p, a); }
  }

  // -- whose tags are safe ---------------------------------------------------------------------

  /** A message that is neither a cap tenant's nor a cluster node's is always safe. */
  lemma WhitelistedSafe(catalog: Catalog, m: CreateMsg)
    requires Usable(m)
    ensures
      var ctx := ContextOf(catalog, m, m.instance.value);
      ctx.capTenant.None? && !IsK8sNode(m.instance.value.metadata) ==> SafeTags(ctx, catalog)
  {
    ContextTags(catalog, m, m.instance.value);
    var ctx := ContextOf(catalog, m, m.instance.value);
    WritesKeepOut(ctx, catalog.refs, CmdbTags(m.instance.value.metadata), ctx.capTenant.Some? || IsK8sNode(m.instance.value.metadata));
  }
}
